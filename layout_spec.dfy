/**
 * What the layout engine draws, as functions of its inputs: the ordered
 * list of drawing primitives, the warnings it reports, and the cursor it
 * threads through the series parts of the circuit string.
 */
module LayoutSpec {
  import opened Geometry
  import opened Notation

  /** One drawing command handed to the schematic library, in order. */
  datatype Primitive =
    | Dot(at: Point)                                              // a junction
    | Line(from: Point, to: Point)                                // a connecting wire
    | Element(tag: char, name: string, at: Point, dir: Direction) // a labelled component glyph

  /** A recognised member of a parallel group: its type tag and its label. */
  datatype Member = Member(tag: char, name: string)

  /** The members kept from a group's tokens and the warnings reported on the way. */
  datatype Recognised = Recognised(members: seq<Member>, warnings: seq<string>)

  /** The fixed drawing settings of one call. */
  datatype Options = Options(dir: Direction, spacing: real, elemLen: real)

  /** The cursor-threaded state: what has been drawn, reported, and where drawing continues. */
  datatype LayoutState = LayoutState(items: seq<Primitive>, warnings: seq<string>, cursor: Point)

  /**
   * Where schemdraw puts the far end of an element placed at `at` facing
   * `dir`; every glyph is taken to be `elemLen` long.
   */
  function ElementEnd(at: Point, dir: Direction, elemLen: real): (e: Point)
    ensures MainCoord(e, dir) == MainCoord(at, dir) + Sign(dir) * elemLen
    ensures PerpCoord(e, dir) == PerpCoord(at, dir)
  {
    Move(at, dir, elemLen)
  }

  // ---------------------------------------------------------------------
  // Members of a parallel group
  // ---------------------------------------------------------------------

  /**
   * Scan the tokens of a group in order: an empty token is skipped, a token
   * whose first character is a key becomes a member labelled with the whole
   * token, and any other token is reported with a warning.
   */
  function Recognise(tokens: seq<string>): (r: Recognised)
    ensures |r.members| + |r.warnings| <= |tokens|
    ensures forall k :: 0 <= k < |r.members| ==>
              r.members[k].name != [] && r.members[k].tag == r.members[k].name[0] && IsKnown(r.members[k].name)
  {
    if tokens == [] then Recognised([], [])
    else
      var r := Recognise(tokens[..|tokens| - 1]);
      var t := tokens[|tokens| - 1];
      if t == [] then r
      else if IsKnown(t) then Recognised(r.members + [Member(t[0], t)], r.warnings)
      else Recognised(r.members, r.warnings + [UnknownTypeWarning(t[0], t)])
  }

  // ---------------------------------------------------------------------
  // Parallel groups
  // ---------------------------------------------------------------------

  /**
   * The four primitives of branch `i` of `n`: a wire from the entry
   * junction out to the branch, the element, a wire from the element's end
   * to the branch end, and a wire back to the exit junction.
   */
  function Branch(start: Point, opt: Options, n: nat, i: nat, m: Member): (prims: seq<Primitive>)
    ensures |prims| == 4
  {
    var finish := Move(start, opt.dir, BranchLength);
    var off := Offset(i, n, opt.spacing);
    var branchStart := Shift(start, opt.dir, off);
    var branchEnd := Shift(finish, opt.dir, off);
    [ Line(start, branchStart),
      Element(m.tag, m.name, branchStart, opt.dir),
      Line(ElementEnd(branchStart, opt.dir, opt.elemLen), branchEnd),
      Line(branchEnd, finish) ]
  }

  /** The branches of the first `k` members, in member order. */
  function Branches(start: Point, opt: Options, members: seq<Member>, k: nat): (prims: seq<Primitive>)
    requires k <= |members|
    ensures |prims| == 4 * k
  {
    if k == 0 then []
    else Branches(start, opt, members, k - 1) + Branch(start, opt, |members|, k - 1, members[k - 1])
  }

  /** Everything a parallel group draws: two junctions, then every branch. */
  function ParallelPrims(start: Point, opt: Options, members: seq<Member>): (prims: seq<Primitive>)
    ensures |prims| == 2 + 4 * |members|
  {
    [Dot(start), Dot(Move(start, opt.dir, BranchLength))] + Branches(start, opt, members, |members|)
  }

  // ---------------------------------------------------------------------
  // Series parts
  // ---------------------------------------------------------------------

  /** Process one series part of the circuit string. */
  function Step(st: LayoutState, raw: string, opt: Options): LayoutState
  {
    match Classify(raw)
    case Blank => st
    case Leaf(t) =>
      if IsKnown(t) then
        LayoutState(st.items + [Element(t[0], t, st.cursor, opt.dir)], st.warnings,
                    ElementEnd(st.cursor, opt.dir, opt.elemLen))
      else
        LayoutState(st.items, st.warnings + [UnknownTypeWarning(t[0], t)], st.cursor)
    case Group(tokens) =>
      var r := Recognise(tokens);
      if r.members == [] then LayoutState(st.items, st.warnings + r.warnings, st.cursor)
      else
        LayoutState(st.items + ParallelPrims(st.cursor, opt, r.members), st.warnings + r.warnings,
                    Move(st.cursor, opt.dir, BranchLength))
  }

  /** Process the series parts left to right, threading the state. */
  function Run(parts: seq<string>, st: LayoutState, opt: Options): LayoutState
  {
    if parts == [] then st else Run(parts[1..], Step(st, parts[0], opt), opt)
  }

  /** The whole layout of a circuit string drawn from `start`. */
  function Layout(circuit: string, start: Point, opt: Options): LayoutState
  {
    Run(Split(circuit, '-'), LayoutState([], [], start), opt)
  }
}
