/**
 * Properties of the layout: how the members of a group are recognised,
 * where each branch of a parallel group lies, how the layout of a circuit
 * string is composed from the layouts of its series parts, where the
 * cursor ends up, and which labels and warnings come out, in order.
 */
module LayoutProperties {
  import opened Geometry
  import opened Notation
  import opened LayoutSpec

  // ---------------------------------------------------------------------
  // Recognising the members of a group
  // ---------------------------------------------------------------------

  /** Recognising two runs of tokens one after the other keeps both results in order. */
  lemma {:induction false} RecogniseAppend(a: seq<string>, b: seq<string>)
    ensures Recognise(a + b)
         == Recognised(Recognise(a).members + Recognise(b).members, Recognise(a).warnings + Recognise(b).warnings)
  {
    if b == [] {
      assert a + b == a;
    } else {
      var init := b[..|b| - 1];
      assert (a + b)[..|a + b| - 1] == a + init;
      assert (a + b)[|a + b| - 1] == b[|b| - 1];
      RecogniseAppend(a, init);
      var ra, ri := Recognise(a), Recognise(init);
      var t := b[|b| - 1];
      if t != [] && IsKnown(t) {
        assert ra.members + ri.members + [Member(t[0], t)] == ra.members + (ri.members + [Member(t[0], t)]);
      } else if t != [] {
        assert ra.warnings + ri.warnings + [UnknownTypeWarning(t[0], t)]
            == ra.warnings + (ri.warnings + [UnknownTypeWarning(t[0], t)]);
      }
    }
  }

  /**
   * A non-empty token becomes a member, labelled with the whole token,
   * exactly when it occurs among the tokens and its first character is a
   * key; every member comes from a token.
   */
  lemma {:induction false} RecogniseMembers(tokens: seq<string>, t: string)
    ensures t != [] ==> (Member(t[0], t) in Recognise(tokens).members <==> t in tokens && IsKnown(t))
    ensures forall m :: m in Recognise(tokens).members ==> m.name in tokens
  {
    if tokens != [] {
      var init := tokens[..|tokens| - 1];
      assert tokens == init + [tokens[|tokens| - 1]];
      RecogniseMembers(init, t);
    }
  }

  /**
   * Every non-empty token whose type is not a key is reported, and every
   * warning reports such a token.
   */
  lemma {:induction false} RecogniseWarnings(tokens: seq<string>, t: string)
    ensures t != [] && t in tokens && !IsKnown(t) ==> UnknownTypeWarning(t[0], t) in Recognise(tokens).warnings
    ensures forall w :: w in Recognise(tokens).warnings ==>
              exists u :: u in tokens && u != [] && !IsKnown(u) && w == UnknownTypeWarning(u[0], u)
  {
    if tokens != [] {
      var init := tokens[..|tokens| - 1];
      assert tokens == init + [tokens[|tokens| - 1]];
      RecogniseWarnings(init, t);
      var last := tokens[|tokens| - 1];
      forall w | w in Recognise(tokens).warnings
        ensures exists u :: u in tokens && u != [] && !IsKnown(u) && w == UnknownTypeWarning(u[0], u)
      {
        if w !in Recognise(init).warnings {
          assert last in tokens && w == UnknownTypeWarning(last[0], last);
        } else {
          var u :| u in init && u != [] && !IsKnown(u) && w == UnknownTypeWarning(u[0], u);
          assert u in tokens;
        }
      }
    }
  }

  /** Each non-empty token yields exactly one member or one warning; empty tokens yield neither. */
  lemma {:induction false} RecogniseCounts(tokens: seq<string>)
    ensures |Recognise(tokens).members| + |Recognise(tokens).warnings| == |tokens| - multiset(tokens)[""]
  {
    if tokens != [] {
      var init := tokens[..|tokens| - 1];
      assert tokens == init + [tokens[|tokens| - 1]];
      assert multiset(tokens) == multiset(init) + multiset{tokens[|tokens| - 1]};
      RecogniseCounts(init);
    }
  }

  // ---------------------------------------------------------------------
  // Geometry of a parallel group
  // ---------------------------------------------------------------------

  lemma {:induction false} BranchesSlice(start: Point, opt: Options, members: seq<Member>, k: nat, j: nat)
    requires j < k <= |members|
    ensures Branches(start, opt, members, k)[4 * j..4 * j + 4] == Branch(start, opt, |members|, j, members[j])
  {
    var prev := Branches(start, opt, members, k - 1);
    if j < k - 1 {
      BranchesSlice(start, opt, members, k - 1, j);
      assert Branches(start, opt, members, k)[4 * j..4 * j + 4] == prev[4 * j..4 * j + 4];
    } else {
      assert |prev| == 4 * j;
    }
  }

  /**
   * Branch `j` of a parallel group: a wire from the entry junction to the
   * branch start, which lies on the entry junction's line across the
   * direction, offset by `Offset(j, n, spacing)`; the member's element
   * there, facing the direction; a wire from the element's end to the
   * branch end, level with the exit junction and at the same offset; and a
   * wire from there to the exit junction, three units from the entry.
   */
  lemma ParallelBranch(start: Point, opt: Options, members: seq<Member>, j: nat)
    requires j < |members|
    ensures var prims := ParallelPrims(start, opt, members);
            var d := opt.dir;
            prims[0] == Dot(start)
            && prims[1].Dot?
            && MainCoord(prims[1].at, d) == MainCoord(start, d) + Sign(d) * BranchLength
            && PerpCoord(prims[1].at, d) == PerpCoord(start, d)
            && prims[3 + 4 * j].Element?
            && prims[3 + 4 * j].tag == members[j].tag
            && prims[3 + 4 * j].name == members[j].name
            && prims[3 + 4 * j].dir == d
            && MainCoord(prims[3 + 4 * j].at, d) == MainCoord(start, d)
            && PerpCoord(prims[3 + 4 * j].at, d) == PerpCoord(start, d) + Offset(j, |members|, opt.spacing)
            && prims[2 + 4 * j] == Line(start, prims[3 + 4 * j].at)
            && prims[4 + 4 * j].Line?
            && prims[4 + 4 * j].from == ElementEnd(prims[3 + 4 * j].at, d, opt.elemLen)
            && MainCoord(prims[4 + 4 * j].to, d) == MainCoord(prims[1].at, d)
            && PerpCoord(prims[4 + 4 * j].to, d) == PerpCoord(prims[3 + 4 * j].at, d)
            && prims[5 + 4 * j] == Line(prims[4 + 4 * j].to, prims[1].at)
  {
    var bs := Branches(start, opt, members, |members|);
    BranchesSlice(start, opt, members, |members|, j);
    var b := Branch(start, opt, |members|, j, members[j]);
    var prims := ParallelPrims(start, opt, members);
    assert prims[2 + 4 * j..6 + 4 * j] == bs[4 * j..4 * j + 4];
    assert prims[2 + 4 * j] == b[0] && prims[3 + 4 * j] == b[1];
    assert prims[4 + 4 * j] == b[2] && prims[5 + 4 * j] == b[3];
  }

  /** The labels of the elements among `items`, in drawing order. */
  function Labels(items: seq<Primitive>): (labels: seq<string>)
    ensures |labels| <= |items|
  {
    if items == [] then []
    else
      var last := items[|items| - 1];
      Labels(items[..|items| - 1]) + (if last.Element? then [last.name] else [])
  }

  lemma {:induction false} LabelsAppend(a: seq<Primitive>, b: seq<Primitive>)
    ensures Labels(a + b) == Labels(a) + Labels(b)
  {
    if b == [] {
      assert a + b == a;
    } else {
      var init := b[..|b| - 1];
      assert (a + b)[..|a + b| - 1] == a + init;
      assert (a + b)[|a + b| - 1] == b[|b| - 1];
      LabelsAppend(a, init);
    }
  }

  /** The labels of `members`, in order. */
  function Names(members: seq<Member>): (names: seq<string>)
    ensures |names| == |members|
    ensures forall k :: 0 <= k < |members| ==> names[k] == members[k].name
  {
    seq(|members|, k requires 0 <= k < |members| => members[k].name)
  }

  lemma LabelsOfBranch(start: Point, opt: Options, n: nat, i: nat, m: Member)
    ensures Labels(Branch(start, opt, n, i, m)) == [m.name]
  {
    var b := Branch(start, opt, n, i, m);
    assert b[..3][..2][..1][..0] == [];
    assert b[..3][..2][..1] == [b[0]];
    assert Labels(b[..3][..2][..1]) == [];
    assert b[..3][..2] == [b[0], b[1]];
    assert Labels(b[..3][..2]) == [m.name];
    assert b[..3] == [b[0], b[1], b[2]];
    assert Labels(b[..3]) == [m.name];
  }

  lemma {:induction false} BranchesLabels(start: Point, opt: Options, members: seq<Member>, k: nat)
    requires k <= |members|
    ensures Labels(Branches(start, opt, members, k)) == Names(members[..k])
  {
    if k > 0 {
      BranchesLabels(start, opt, members, k - 1);
      var b := Branch(start, opt, |members|, k - 1, members[k - 1]);
      LabelsAppend(Branches(start, opt, members, k - 1), b);
      LabelsOfBranch(start, opt, |members|, k - 1, members[k - 1]);
      assert Names(members[..k]) == Names(members[..k - 1]) + [members[k - 1].name];
    }
  }

  /** A parallel group draws exactly one element per member, labelled and ordered as the members. */
  lemma ParallelLabels(start: Point, opt: Options, members: seq<Member>)
    ensures Labels(ParallelPrims(start, opt, members)) == Names(members)
  {
    var dots := [Dot(start), Dot(Move(start, opt.dir, BranchLength))];
    LabelsAppend(dots, Branches(start, opt, members, |members|));
    assert dots[..1][..0] == [] && dots[..1] == [dots[0]];
    assert Labels(dots) == [];
    BranchesLabels(start, opt, members, |members|);
    assert members[..|members|] == members;
  }

  // ---------------------------------------------------------------------
  // Composing the layout of series parts
  // ---------------------------------------------------------------------

  /** Nothing drawn or reported yet, with the cursor at `at`. */
  function Fresh(at: Point): LayoutState
  {
    LayoutState([], [], at)
  }

  /** Processing two runs of parts is processing the first, then the second. */
  lemma {:induction false} RunAppend(x: seq<string>, y: seq<string>, st: LayoutState, opt: Options)
    ensures Run(x + y, st, opt) == Run(y, Run(x, st, opt), opt)
  {
    if x == [] {
      assert x + y == y;
    } else {
      assert (x + y)[0] == x[0];
      assert (x + y)[1..] == x[1..] + y;
      RunAppend(x[1..], y, Step(st, x[0], opt), opt);
    }
  }

  /**
   * A part appends to what has been drawn and reported and never looks at
   * it: only the cursor matters.
   */
  lemma StepFrame(st: LayoutState, raw: string, opt: Options)
    ensures var s := Step(Fresh(st.cursor), raw, opt);
            Step(st, raw, opt) == LayoutState(st.items + s.items, st.warnings + s.warnings, s.cursor)
  {
    match Classify(raw)
    case Blank =>
      assert st.items + [] == st.items && st.warnings + [] == st.warnings;
    case Leaf(t) =>
      if IsKnown(t) {
        assert [] + [Element(t[0], t, st.cursor, opt.dir)] == [Element(t[0], t, st.cursor, opt.dir)];
        assert st.warnings + [] == st.warnings;
      } else {
        assert [] + [UnknownTypeWarning(t[0], t)] == [UnknownTypeWarning(t[0], t)];
        assert st.items + [] == st.items;
      }
    case Group(tokens) =>
      var r := Recognise(tokens);
      assert [] + r.warnings == r.warnings;
      if r.members == [] {
        assert st.items + [] == st.items;
      } else {
        assert [] + ParallelPrims(st.cursor, opt, r.members) == ParallelPrims(st.cursor, opt, r.members);
      }
  }

  /** Appending `s` then `r` to `st` is appending `s + r`. */
  lemma FrameCompose(st: LayoutState, s: LayoutState, t: LayoutState, r: LayoutState, x: LayoutState, y: LayoutState)
    requires t == LayoutState(st.items + s.items, st.warnings + s.warnings, s.cursor)
    requires x == LayoutState(t.items + r.items, t.warnings + r.warnings, r.cursor)
    requires y == LayoutState(s.items + r.items, s.warnings + r.warnings, r.cursor)
    ensures x == LayoutState(st.items + y.items, st.warnings + y.warnings, y.cursor)
  {
    assert st.items + s.items + r.items == st.items + (s.items + r.items);
    assert st.warnings + s.warnings + r.warnings == st.warnings + (s.warnings + r.warnings);
  }

  /** The same holds for a run of parts. */
  lemma {:induction false} RunFrame(parts: seq<string>, st: LayoutState, opt: Options)
    ensures var r := Run(parts, Fresh(st.cursor), opt);
            Run(parts, st, opt) == LayoutState(st.items + r.items, st.warnings + r.warnings, r.cursor)
  {
    if parts == [] {
      assert st.items + [] == st.items && st.warnings + [] == st.warnings;
    } else {
      var s := Step(Fresh(st.cursor), parts[0], opt);
      var t := Step(st, parts[0], opt);
      StepFrame(st, parts[0], opt);
      RunFrame(parts[1..], t, opt);
      RunFrame(parts[1..], s, opt);
      var r := Run(parts[1..], Fresh(s.cursor), opt);
      FrameCompose(st, s, t, r, Run(parts[1..], t, opt), Run(parts[1..], s, opt));
    }
  }

  /**
   * The layout of `a-b` is the layout of `a` followed by the layout of `b`
   * drawn from where `a` left the cursor.
   */
  lemma LayoutConcat(a: string, b: string, start: Point, opt: Options)
    ensures var la := Layout(a, start, opt);
            var lb := Layout(b, la.cursor, opt);
            Layout(a + "-" + b, start, opt) == LayoutState(la.items + lb.items, la.warnings + lb.warnings, lb.cursor)
  {
    var la := Layout(a, start, opt);
    assert a + "-" + b == a + ['-'] + b;
    SplitAtSeparator(a, b, '-');
    RunAppend(Split(a, '-'), Split(b, '-'), Fresh(start), opt);
    RunFrame(Split(b, '-'), la, opt);
  }

  /**
   * A part whose trimmed text is not a group and whose type is a key
   * places one element, labelled with the trimmed text, at the cursor and
   * moves the cursor to the element's end.
   */
  lemma KnownLeafStep(raw: string, st: LayoutState, opt: Options)
    requires Strip(raw) != [] && !IsGroupSyntax(Strip(raw)) && IsKnown(Strip(raw))
    ensures Step(st, raw, opt)
         == LayoutState(st.items + [Element(Strip(raw)[0], Strip(raw), st.cursor, opt.dir)], st.warnings,
                        ElementEnd(st.cursor, opt.dir, opt.elemLen))
  {
  }

  /** A part whose trimmed text has a type that is not a key draws nothing and reports one warning. */
  lemma UnknownLeafStep(raw: string, st: LayoutState, opt: Options)
    requires Strip(raw) != [] && !IsKnown(Strip(raw))
    ensures Step(st, raw, opt)
         == LayoutState(st.items, st.warnings + [UnknownTypeWarning(Strip(raw)[0], Strip(raw))], st.cursor)
  {
    var t := Strip(raw);
    assert |t| >= 2 ==> t[..2][0] == t[0];
  }

  /**
   * A group none of whose tokens is recognised draws nothing and leaves
   * the cursor; only the warnings for its tokens are added.
   */
  lemma MemberlessGroupStep(st: LayoutState, raw: string, opt: Options)
    requires Classify(raw).Group? && Recognise(Classify(raw).tokens).members == []
    ensures Step(st, raw, opt)
         == LayoutState(st.items, st.warnings + Recognise(Classify(raw).tokens).warnings, st.cursor)
  {
  }

  /** `p(...)` is a group whose tokens are the trimmed comma-separated pieces of its interior. */
  lemma GroupPart(inner: string)
    ensures Classify("p(" + inner + ")") == Group(StripAll(Split(inner, ',')))
  {
    var part := "p(" + inner + ")";
    assert part[0] == 'p' && part[|part| - 1] == ')';
    StrippedUnchanged(part);
    assert part[..2] == "p(" && part[|part| - 1..] == ")";
    assert IsGroupSyntax(part);
    var interior := GroupInterior(part);
    assert interior == part[2..|part| - 1] == inner;
  }

  /** A string without a `-` is a single series part. */
  lemma SinglePart(w: string, start: Point, opt: Options)
    requires '-' !in w
    ensures Layout(w, start, opt) == Step(Fresh(start), w, opt)
  {
    SplitJoin([w], '-');
    assert Split(w, '-') == [w];
    assert Split(w, '-')[1..] == [];
    assert Run([], Step(Fresh(start), w, opt), opt) == Step(Fresh(start), w, opt);
  }

  /** A part that is empty or all white space draws nothing, reports nothing and leaves the cursor. */
  lemma BlankLayout(w: string, start: Point, opt: Options)
    requires AllSpace(w)
    ensures Layout(w, start, opt) == Fresh(start)
  {
    assert '-' !in w by {
      forall k | 0 <= k < |w| ensures w[k] != '-' {
        assert IsSpace(w[k]);
      }
    }
    SinglePart(w, start, opt);
    StripSurrounded(w, [], []);
    assert w + [] + [] == w;
    assert Classify(w) == Blank;
  }

  /** `a--b`, or `a- -b`, lays out as `a-b`: blank series parts are skipped. */
  lemma BlankPartSkipped(a: string, w: string, b: string, start: Point, opt: Options)
    requires AllSpace(w)
    ensures Layout(a + "-" + w + "-" + b, start, opt) == Layout(a + "-" + b, start, opt)
  {
    var la := Layout(a, start, opt);
    LayoutConcat(a + "-" + w, b, start, opt);
    LayoutConcat(a, w, start, opt);
    BlankLayout(w, la.cursor, opt);
    assert la.items + [] == la.items && la.warnings + [] == la.warnings;
    LayoutConcat(a, b, start, opt);
  }

  // ---------------------------------------------------------------------
  // Where the cursor ends up
  // ---------------------------------------------------------------------

  /**
   * How far one part moves the cursor along the direction: a placed
   * component its length, a group with at least one member the branch
   * length, anything else nothing.
   */
  function Advance(raw: string, opt: Options): real
  {
    match Classify(raw)
    case Leaf(t) => if IsKnown(t) then opt.elemLen else 0.0
    case Group(tokens) => if Recognise(tokens).members != [] then BranchLength else 0.0
    case Blank => 0.0
  }

  /** The summed advance of a run of parts. */
  function TotalAdvance(parts: seq<string>, opt: Options): (total: real)
    ensures opt.elemLen >= 0.0 ==> total >= 0.0
  {
    if parts == [] then 0.0 else Advance(parts[0], opt) + TotalAdvance(parts[1..], opt)
  }

  lemma {:induction false} RunCursor(parts: seq<string>, st: LayoutState, opt: Options)
    ensures Run(parts, st, opt).cursor == Move(st.cursor, opt.dir, TotalAdvance(parts, opt))
  {
    if parts != [] {
      var next := Step(st, parts[0], opt);
      assert next.cursor == Move(st.cursor, opt.dir, Advance(parts[0], opt));
      RunCursor(parts[1..], next, opt);
      MoveTwice(st.cursor, opt.dir, Advance(parts[0], opt), TotalAdvance(parts[1..], opt));
    }
  }

  /**
   * The circuit is drawn along one straight line: the final cursor lies on
   * the start's line along the direction, moved by the summed advance of
   * the parts, and never backwards when elements have a non-negative
   * length.
   */
  lemma LayoutCursor(circuit: string, start: Point, opt: Options)
    ensures Layout(circuit, start, opt).cursor == Move(start, opt.dir, TotalAdvance(Split(circuit, '-'), opt))
    ensures PerpCoord(Layout(circuit, start, opt).cursor, opt.dir) == PerpCoord(start, opt.dir)
    ensures opt.elemLen >= 0.0 ==> NotBehind(Layout(circuit, start, opt).cursor, start, opt.dir)
  {
    var total := TotalAdvance(Split(circuit, '-'), opt);
    var cursor := Layout(circuit, start, opt).cursor;
    assert cursor == Move(start, opt.dir, total) by {
      RunCursor(Split(circuit, '-'), Fresh(start), opt);
    }
    if opt.elemLen >= 0.0 {
      MoveForward(start, opt.dir, total);
    }
  }

  // ---------------------------------------------------------------------
  // Labels and warnings of the whole layout
  // ---------------------------------------------------------------------

  /** The labels one part draws: the token of a placed component, or the members of a group. */
  function PartLabels(raw: string): seq<string>
  {
    match Classify(raw)
    case Leaf(t) => if IsKnown(t) then [t] else []
    case Group(tokens) => Names(Recognise(tokens).members)
    case Blank => []
  }

  /** The warnings one part reports: its own unknown type, or those of its group's tokens. */
  function PartWarnings(raw: string): seq<string>
  {
    match Classify(raw)
    case Leaf(t) => if IsKnown(t) then [] else [UnknownTypeWarning(t[0], t)]
    case Group(tokens) => Recognise(tokens).warnings
    case Blank => []
  }

  function AllLabels(parts: seq<string>): seq<string>
  {
    if parts == [] then [] else PartLabels(parts[0]) + AllLabels(parts[1..])
  }

  function AllWarnings(parts: seq<string>): seq<string>
  {
    if parts == [] then [] else PartWarnings(parts[0]) + AllWarnings(parts[1..])
  }

  lemma StepLabels(at: Point, raw: string, opt: Options)
    ensures Labels(Step(Fresh(at), raw, opt).items) == PartLabels(raw)
  {
    match Classify(raw)
    case Leaf(t) =>
      if IsKnown(t) {
        var e := [Element(t[0], t, at, opt.dir)];
        assert [] + e == e && e[..0] == [];
      }
    case Group(tokens) =>
      var r := Recognise(tokens);
      if r.members != [] {
        ParallelLabels(at, opt, r.members);
        assert [] + ParallelPrims(at, opt, r.members) == ParallelPrims(at, opt, r.members);
      }
    case Blank =>
  }

  lemma StepWarnings(at: Point, raw: string, opt: Options)
    ensures Step(Fresh(at), raw, opt).warnings == PartWarnings(raw)
  {
    match Classify(raw)
    case Leaf(t) =>
      assert [] + [UnknownTypeWarning(t[0], t)] == [UnknownTypeWarning(t[0], t)];
    case Group(tokens) =>
      assert [] + Recognise(tokens).warnings == Recognise(tokens).warnings;
    case Blank =>
  }

  lemma {:induction false} RunOutput(parts: seq<string>, at: Point, opt: Options)
    ensures Labels(Run(parts, Fresh(at), opt).items) == AllLabels(parts)
    ensures Run(parts, Fresh(at), opt).warnings == AllWarnings(parts)
  {
    if parts != [] {
      var s := Step(Fresh(at), parts[0], opt);
      StepLabels(at, parts[0], opt);
      StepWarnings(at, parts[0], opt);
      RunFrame(parts[1..], s, opt);
      var r := Run(parts[1..], Fresh(s.cursor), opt);
      RunOutput(parts[1..], s.cursor, opt);
      LabelsAppend(s.items, r.items);
    }
  }

  /**
   * Reading the drawing's elements in order gives the labels of the
   * series parts in order, a group contributing its members; the warnings
   * are those of the parts in order.
   */
  lemma LayoutOutput(circuit: string, start: Point, opt: Options)
    ensures Labels(Layout(circuit, start, opt).items) == AllLabels(Split(circuit, '-'))
    ensures Layout(circuit, start, opt).warnings == AllWarnings(Split(circuit, '-'))
  {
    RunOutput(Split(circuit, '-'), start, opt);
  }

  // ---------------------------------------------------------------------
  // Which tokens are drawn and which are reported
  // ---------------------------------------------------------------------

  /** The non-empty tokens whose type is a key, in order: the ones that are drawn. */
  function KnownTokens(tokens: seq<string>): (known: seq<string>)
    ensures |known| <= |tokens|
  {
    if tokens == [] then []
    else
      var t := tokens[|tokens| - 1];
      KnownTokens(tokens[..|tokens| - 1]) + (if t != [] && IsKnown(t) then [t] else [])
  }

  /** The warnings for the non-empty tokens whose type is not a key, in order. */
  function UnknownWarnings(tokens: seq<string>): (warnings: seq<string>)
    ensures |warnings| <= |tokens|
  {
    if tokens == [] then []
    else
      var t := tokens[|tokens| - 1];
      UnknownWarnings(tokens[..|tokens| - 1]) + (if t != [] && !IsKnown(t) then [UnknownTypeWarning(t[0], t)] else [])
  }

  lemma {:induction false} KnownTokensAppend(a: seq<string>, b: seq<string>)
    ensures KnownTokens(a + b) == KnownTokens(a) + KnownTokens(b)
    ensures UnknownWarnings(a + b) == UnknownWarnings(a) + UnknownWarnings(b)
  {
    if b == [] {
      assert a + b == a;
    } else {
      var init := b[..|b| - 1];
      assert (a + b)[..|a + b| - 1] == a + init;
      assert (a + b)[|a + b| - 1] == b[|b| - 1];
      KnownTokensAppend(a, init);
    }
  }

  /**
   * The members of a group are labelled with its drawable tokens, in
   * order, and its warnings are those of its other non-empty tokens.
   */
  lemma {:induction false} RecogniseTokens(tokens: seq<string>)
    ensures Names(Recognise(tokens).members) == KnownTokens(tokens)
    ensures Recognise(tokens).warnings == UnknownWarnings(tokens)
  {
    if tokens != [] {
      var init := tokens[..|tokens| - 1];
      RecogniseTokens(init);
      var t := tokens[|tokens| - 1];
      if t != [] && IsKnown(t) {
        var ms := Recognise(init).members;
        assert Names(ms + [Member(t[0], t)]) == Names(ms) + [t];
      }
    }
  }

  /** All the tokens of a run of series parts, a leaf giving its token and a group its tokens, in order. */
  function AllTokens(parts: seq<string>): seq<string>
  {
    if parts == [] then [] else SegmentTokens(Classify(parts[0])) + AllTokens(parts[1..])
  }

  lemma PartTokens(raw: string)
    ensures PartLabels(raw) == KnownTokens(SegmentTokens(Classify(raw)))
    ensures PartWarnings(raw) == UnknownWarnings(SegmentTokens(Classify(raw)))
  {
    ClassifyCases(raw);
    match Classify(raw)
    case Leaf(t) =>
      assert [t][..0] == [];
    case Group(tokens) =>
      RecogniseTokens(tokens);
    case Blank =>
  }

  lemma {:induction false} AllPartTokens(parts: seq<string>)
    ensures AllLabels(parts) == KnownTokens(AllTokens(parts))
    ensures AllWarnings(parts) == UnknownWarnings(AllTokens(parts))
  {
    if parts != [] {
      PartTokens(parts[0]);
      AllPartTokens(parts[1..]);
      KnownTokensAppend(SegmentTokens(Classify(parts[0])), AllTokens(parts[1..]));
    }
  }

  /**
   * The drawing holds one element for each non-empty token whose type is
   * a key, series part or group member alike, labelled with the token and
   * in the order of the string; every other non-empty token is reported
   * once, in the same order. Empty tokens and blank parts leave no trace.
   */
  lemma LayoutTokens(circuit: string, start: Point, opt: Options)
    ensures Labels(Layout(circuit, start, opt).items) == KnownTokens(AllTokens(Split(circuit, '-')))
    ensures Layout(circuit, start, opt).warnings == UnknownWarnings(AllTokens(Split(circuit, '-')))
  {
    LayoutOutput(circuit, start, opt);
    AllPartTokens(Split(circuit, '-'));
  }

  /**
   * A part whose trimmed text opens with `p(` but does not end with `)` is
   * not a group: it is a leaf whose type `p` is a key, labelled with the
   * whole trimmed part.
   */
  lemma UnbalancedIsLeaf(raw: string)
    requires StartsWith(Strip(raw), "p(") && !EndsWith(Strip(raw), ")")
    ensures Classify(raw) == Leaf(Strip(raw)) && IsKnown(Strip(raw)) && Strip(raw)[0] == 'p'
  {
    var t := Strip(raw);
    assert t[..2][0] == t[0];
  }
}
