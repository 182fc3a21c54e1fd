/**
 * The layout engine as the program runs it: a drawing that primitives are
 * appended to in place, a loop over the branches of a parallel group, and
 * a loop over the series parts of the circuit string that moves a cursor.
 * Each method is proved to produce what `LayoutSpec` describes.
 */
module CircuitModel {
  import opened Geometry
  import opened Notation
  import opened LayoutSpec

  /** The schematic being built: the primitives added to it, in order. */
  class Drawing {
    var items: seq<Primitive>

    constructor ()
      ensures items == []
    {
      items := [];
    }

    /** `drawing += primitive` */
    method Add(p: Primitive)
      modifies this
      ensures items == old(items) + [p]
    {
      items := items + [p];
    }
  }

  /**
   * Draw `elements` as parallel branches between an entry junction at
   * `startPos` and an exit junction three units further along `direction`,
   * and return the same drawing.
   */
  method DrawParallelElements(drawing: Drawing, elements: seq<Member>, startPos: Point,
                              direction: string, spacing: real, elemLen: real)
    returns (result: Drawing)
    modifies drawing
    ensures result == drawing
    ensures drawing.items
         == old(drawing.items) + ParallelPrims(startPos, Options(ParseDirection(direction), spacing, elemLen), elements)
  {
    ghost var opt := Options(ParseDirection(direction), spacing, elemLen);
    ghost var before := drawing.items;
    var totalSpan := spacing * (|elements| as real - 1.0);

    drawing.Add(Dot(startPos));

    var branchLength := 3.0;
    var endPos: Point;
    if direction == "right" {
      endPos := Point(startPos.x + branchLength, startPos.y);
    } else if direction == "left" {
      endPos := Point(startPos.x - branchLength, startPos.y);
    } else if direction == "up" {
      endPos := Point(startPos.x, startPos.y + branchLength);
    } else {
      endPos := Point(startPos.x, startPos.y - branchLength);
    }
    drawing.Add(Dot(endPos));
    assert endPos == Move(startPos, opt.dir, BranchLength);

    var i := 0;
    while i < |elements|
      invariant 0 <= i <= |elements|
      invariant drawing.items == before + [Dot(startPos), Dot(endPos)] + Branches(startPos, opt, elements, i)
    {
      DrawBranch(drawing, startPos, endPos, totalSpan, i, |elements|, elements[i], direction, spacing, elemLen);
      i := i + 1;
    }
    result := drawing;
  }

  /**
   * The body of the loop over branches: draw branch `i` of `n`, holding
   * `element`, between the junctions at `startPos` and `endPos`.
   */
  method DrawBranch(drawing: Drawing, startPos: Point, endPos: Point, totalSpan: real, i: nat, n: nat,
                    element: Member, direction: string, spacing: real, elemLen: real)
    requires totalSpan == spacing * (n as real - 1.0)
    requires endPos == Move(startPos, ParseDirection(direction), BranchLength)
    modifies drawing
    ensures drawing.items
         == old(drawing.items) + Branch(startPos, Options(ParseDirection(direction), spacing, elemLen), n, i, element)
  {
    ghost var opt := Options(ParseDirection(direction), spacing, elemLen);
    var branchStart: Point;
    var branchEnd: Point;
    if direction == "right" || direction == "left" {
      var branchY := startPos.y - totalSpan / 2.0 + i as real * spacing;
      branchStart := Point(startPos.x, branchY);
      branchEnd := Point(endPos.x, branchY);
    } else {
      var branchX := startPos.x - totalSpan / 2.0 + i as real * spacing;
      branchStart := Point(branchX, startPos.y);
      branchEnd := Point(branchX, endPos.y);
    }
    assert branchStart == Shift(startPos, opt.dir, Offset(i, n, spacing));
    assert branchEnd == Shift(endPos, opt.dir, Offset(i, n, spacing));

    // the orientation call on the element (right(), left(), up() or down())
    var facing := ParseDirection(direction);
    drawing.Add(Line(startPos, branchStart));
    drawing.Add(Element(element.tag, element.name, branchStart, facing));
    drawing.Add(Line(ElementEnd(branchStart, facing, elemLen), branchEnd));
    drawing.Add(Line(branchEnd, endPos));
  }

  /**
   * The scan over the tokens of a parallel group: the members to draw and
   * the warnings for tokens whose type is not a key.
   */
  method CollectParallel(components: seq<string>) returns (elements: seq<Member>, warnings: seq<string>)
    ensures Recognised(elements, warnings) == Recognise(components)
  {
    elements, warnings := [], [];
    var i := 0;
    while i < |components|
      invariant 0 <= i <= |components|
      invariant Recognised(elements, warnings) == Recognise(components[..i])
    {
      var comp := components[i];
      assert components[..i + 1][..i] == components[..i];
      if comp != [] {
        var compType := comp[0];
        var compId := comp[1..];
        KnownTags(comp);
        if [compType] in ComponentKeys {
          assert [compType] + compId == comp;
          elements := elements + [Member(compType, [compType] + compId)];
        } else {
          warnings := warnings + [UnknownTypeWarning(compType, comp)];
        }
      }
      i := i + 1;
    }
    assert components[..|components|] == components;
  }

  /**
   * The body of the loop over series parts: draw one part at `currentPos`
   * and return where drawing continues and the warnings so far.
   */
  method DrawPart(drawing: Drawing, rawPart: string, currentPos: Point, warnings: seq<string>,
                  direction: string, spacing: real, elemLen: real)
    returns (nextPos: Point, nextWarnings: seq<string>)
    modifies drawing
    ensures LayoutState(drawing.items, nextWarnings, nextPos)
         == Step(LayoutState(old(drawing.items), warnings, currentPos), rawPart,
                 Options(ParseDirection(direction), spacing, elemLen))
  {
    var branchLength := 3.0;
    nextPos, nextWarnings := currentPos, warnings;
    var part := Strip(rawPart);

    if IsGroupSyntax(part) {
      var parallelStr := GroupInterior(part);
      var parallelComponents := StripAll(Split(parallelStr, ','));
      assert Classify(rawPart) == Group(parallelComponents);
      var elements, groupWarnings := CollectParallel(parallelComponents);
      nextWarnings := nextWarnings + groupWarnings;
      if elements != [] {
        var _ := DrawParallelElements(drawing, elements, currentPos, direction, spacing, elemLen);
        if direction == "right" {
          nextPos := Point(currentPos.x + branchLength, currentPos.y);
        } else if direction == "left" {
          nextPos := Point(currentPos.x - branchLength, currentPos.y);
        } else if direction == "up" {
          nextPos := Point(currentPos.x, currentPos.y + branchLength);
        } else {
          nextPos := Point(currentPos.x, currentPos.y - branchLength);
        }
        assert nextPos == Move(currentPos, ParseDirection(direction), BranchLength);
      }
    } else if part != [] {
      assert Classify(rawPart) == Leaf(part);
      var compType := part[0];
      var compId := part[1..];
      KnownTags(part);
      if [compType] in ComponentKeys {
        var facing := ParseDirection(direction);
        drawing.Add(Element(compType, part, currentPos, facing));
        // the new cursor is the placed component's far end
        nextPos := ElementEnd(currentPos, facing, elemLen);
      } else {
        nextWarnings := nextWarnings + [UnknownTypeWarning(compType, part)];
      }
    } else {
      assert Classify(rawPart) == Blank;
    }
  }

  /** Running from part `i` is processing part `i`, then running from part `i + 1`. */
  lemma RunAt(parts: seq<string>, i: nat, st: LayoutState, opt: Options)
    requires i < |parts|
    ensures Run(parts[i..], st, opt) == Run(parts[i + 1..], Step(st, parts[i], opt), opt)
  {
    assert parts[i..][1..] == parts[i + 1..];
  }

  /**
   * The loop over the series parts: draw each part in turn, moving the
   * cursor from `startPos`, and return the warnings reported.
   */
  method DrawParts(drawing: Drawing, parts: seq<string>, startPos: Point,
                   direction: string, spacing: real, elemLen: real)
    returns (warnings: seq<string>)
    modifies drawing
    ensures drawing.items
         == Run(parts, LayoutState(old(drawing.items), [], startPos), Options(ParseDirection(direction), spacing, elemLen)).items
    ensures warnings
         == Run(parts, LayoutState(old(drawing.items), [], startPos), Options(ParseDirection(direction), spacing, elemLen)).warnings
  {
    ghost var opt := Options(ParseDirection(direction), spacing, elemLen);
    ghost var final := Run(parts, LayoutState(drawing.items, [], startPos), opt);
    warnings := [];
    var currentPos := startPos;
    assert parts[0..] == parts;
    var i := 0;
    while i < |parts|
      invariant 0 <= i <= |parts|
      invariant Run(parts[i..], LayoutState(drawing.items, warnings, currentPos), opt) == final
    {
      ghost var st := LayoutState(drawing.items, warnings, currentPos);
      currentPos, warnings := DrawPart(drawing, parts[i], currentPos, warnings, direction, spacing, elemLen);
      assert Run(parts[i + 1..], LayoutState(drawing.items, warnings, currentPos), opt) == final by {
        RunAt(parts, i, st, opt);
      }
      i := i + 1;
    }
    assert parts[i..] == [];
  }

  /**
   * Lay out a circuit string such as `R0-p(R1,C1)-R2` from `startPos` in
   * `direction`: a new drawing holding the primitives, and the warnings
   * reported for unknown component types.
   */
  method DrawCircuit(circuit: string, startPos: Point, direction: string, spacing: real, elemLen: real)
    returns (drawing: Drawing, warnings: seq<string>)
    ensures fresh(drawing)
    ensures drawing.items == Layout(circuit, startPos, Options(ParseDirection(direction), spacing, elemLen)).items
    ensures warnings == Layout(circuit, startPos, Options(ParseDirection(direction), spacing, elemLen)).warnings
  {
    drawing := new Drawing();
    var parts := Split(circuit, '-');
    warnings := DrawParts(drawing, parts, startPos, direction, spacing, elemLen);
  }
}
