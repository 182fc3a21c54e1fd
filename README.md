# Circuit notation layout

A model of the layout engine of `CircuitModel.py`. `draw_circuit` takes a
compact description of an equivalent circuit, such as `R0-p(R1,C1)-R2`,
and produces a schematic for it. `draw_parallel_elements` draws the
parallel groups of that schematic.

The notation works as follows:
- Series parts are separated by `-` and trimmed of white space.
- A part that starts with `p(` and ends with `)` is a parallel group. The
  inside of a group is split on `,` and each piece is trimmed; empty pieces
  are skipped.
- Any other non-empty part is a single component.
- The type of a component is the first character of its token. It is looked
  up in the table of component keys.
- A component whose type is a key is drawn, labelled with its whole token.
- A component whose type is not a key is reported with the warning
  `Warning: Unknown component type '<type>' in '<token>'` and is not drawn.

Drawing threads a cursor through the parts, along one fixed direction:
- A single component is placed at the cursor, facing the direction, and the
  cursor moves to its far end.
- A group with members draws an entry junction at the cursor and an exit
  junction 3 units further on. Each member gets a branch of four
  primitives: a wire out, the element, a wire to the branch end, and a wire
  back to the exit junction. Branch `i` of `n` sits
  `-spacing*(n-1)/2 + i*spacing` off the axis, across the direction. The
  cursor then moves 3 units, whatever `n` is.
- A group without members draws nothing and leaves the cursor where it was.

The model is made of six modules:
- `Geometry`: points, directions, moves and branch offsets.
- `Notation`: `str.split`, `str.strip`, the key table, and how one series
  part is classified.
- `LayoutSpec`: what is drawn and reported, as functions of the inputs.
- `CircuitModel`: the two routines as the program runs them. A `Drawing`
  object gets primitives appended in place by loops over the branches and
  over the parts. Each method is proved to produce what `LayoutSpec`
  describes.
- `LayoutProperties` and `LayoutExamples`: what the layout promises, and
  worked examples for particular circuit strings.

Three behaviours of the code are modelled as they are written:
- A multi-letter key such as `CPE`, `LED` or `Zarc` can never match, because
  only one character is looked up. So `CPE1` is drawn as a `C`, while
  `Zarc0` and `BAT1` are reported.
- A part that opens with `p(` but has no closing `)` is not rejected. It is
  a component of type `p`, which is a key.
- Nesting `p(...)` inside a group is not rejected either.

One case of the model's direction handling: every direction test in the
code falls through to "down", so any direction name other than `right`,
`left` or `up` is laid out as `down`.

## Model

| member | source | states |
|---|---|---|
| Geometry.ParseDirection | CircuitModel.py:42-53 | the direction is horizontal exactly for `right` and `left`, and any name other than `right`, `left` or `up` behaves as `down` |
| Geometry.Move | CircuitModel.py:200-207 | moving by a distance changes only the coordinate along the direction, by plus or minus that distance (+x right, -x left, +y up, -y down) |
| Geometry.Shift | CircuitModel.py:62-71 | a branch point is offset only across the direction: along y for right/left, along x for up/down |
| Geometry.MoveTwice | CircuitModel.py:199-207 | two advances of the cursor along the same direction add up |
| Geometry.MoveForward | CircuitModel.py:199-207 | advancing by a non-negative distance never leaves the point behind where it started, looking along the direction |
| Geometry.Offset | CircuitModel.py:62-71 | the perpendicular offset `-spacing*(n-1)/2 + i*spacing` of branch `i` of `n`, with `total_span = spacing*(n-1)` of :32; what it promises is stated by `OffsetStep`, `OffsetSymmetric`, `OffsetBounded` and `OffsetsSumToZero` |
| Geometry.OffsetStep | CircuitModel.py:64 | neighbouring branches are exactly `spacing` apart |
| Geometry.OffsetSymmetric | CircuitModel.py:64 | branch `i` and branch `n-1-i` mirror each other across the axis |
| Geometry.OffsetBounded | CircuitModel.py:32-64 | every branch lies within `abs(spacing)*(n-1)/2` of the axis |
| Geometry.OffsetSumClosedForm | CircuitModel.py:64 | the offsets of the first `k` of `n` branches sum to `spacing*k*(k-n)/2` |
| Geometry.OffsetsSumToZero | CircuitModel.py:62-71 | the offsets of all branches of a group sum to zero: the group is centred on the axis |
| Notation.Split | CircuitModel.py:160 | `str.split` with one separator always gives at least one part |
| Notation.SplitPartsFree | CircuitModel.py:169 | no part of a split contains the separator |
| Notation.JoinSplit | CircuitModel.py:160 | joining the parts with the separator gives back the circuit string |
| Notation.SplitJoin | CircuitModel.py:160 | splitting a join of separator-free parts gives back the parts |
| Notation.SplitAtSeparator | CircuitModel.py:160 | the parts of `a-b` are the parts of `a` followed by those of `b` |
| Notation.TrimStart | CircuitModel.py:163 | the result does not start with white space and is no longer than the input |
| Notation.TrimStartSuffix | CircuitModel.py:163 | stripping on the left removes a prefix that is all white space and keeps the rest |
| Notation.TrimEnd | CircuitModel.py:163 | the result does not end with white space and is no longer than the input |
| Notation.TrimEndPrefix | CircuitModel.py:163 | stripping on the right removes a suffix that is all white space and keeps the rest |
| Notation.Strip | CircuitModel.py:163 | a stripped part has no white space at either end |
| Notation.StripSurrounded | CircuitModel.py:169 | stripping removes exactly the white space around a stripped core |
| Notation.StripIdempotent | CircuitModel.py:163 | stripping twice is stripping once |
| Notation.StrippedUnchanged | CircuitModel.py:163 | a part without white space at its ends is unchanged by stripping |
| Notation.StripKeepsOut | CircuitModel.py:169 | stripping cannot introduce a character, such as a comma |
| Notation.KnownTags | CircuitModel.py:128-154 | a token's type is found in the key table exactly when its first character is one of the one-letter keys |
| Notation.IsKnown | CircuitModel.py:179-182 | the type of a token is its first character, and the token is drawn when that type is a key (`comp_type in component_map`); `KnownTags` states that this is exactly the lookup in the whole key table |
| Notation.UnknownTypeWarning | CircuitModel.py:186 | the exact text printed for an unknown type, `Warning: Unknown component type '<type>' in '<token>'`, also used at :234; `UnknownInSeries` and `MultiLetterKeys` state it for concrete tokens |
| Notation.GroupInterior | CircuitModel.py:166-168 | a group part is `p(` + interior + `)` |
| Notation.StripAll | CircuitModel.py:169 | every group token is the stripped comma-separated piece at the same position |
| Notation.Classify | CircuitModel.py:163-210 | a part is stripped, then treated as a group when it reads `p(...)`, with the stripped comma-separated pieces of its interior as tokens, as a single component when it is non-empty, and as blank otherwise; `ClassifyCases` states this as three if-and-only-ifs |
| Notation.ClassifyCases | CircuitModel.py:163-210 | a part is blank exactly when it is all white space, and a group exactly when its trimmed text reads `p(...)`; otherwise it is a leaf holding its trimmed text; group tokens are trimmed and contain no commas |
| LayoutSpec.Recognise | CircuitModel.py:172-186 | a group yields at most one member or warning per token, and each member is tagged with its token's first character, which is a key |
| LayoutSpec.ElementEnd | CircuitModel.py:232 | the far end of a placed element (`component.end`, and `element.end` at :91) lies `elemLen` along the direction from where it was placed, level with it across the direction |
| LayoutSpec.Branch | CircuitModel.py:60-94 | each branch draws four primitives |
| LayoutSpec.Branches | CircuitModel.py:60-94 | `k` branches draw `4k` primitives |
| LayoutSpec.ParallelPrims | CircuitModel.py:31-96 | a group of `n` members draws `2 + 4n` primitives |
| LayoutSpec.Step | CircuitModel.py:162-234 | one pass of the parts loop: a blank part changes nothing; a component whose type is a key is placed at the cursor and the cursor moves to its end, any other is reported; a group reports its unknown tokens and, when it has members, draws `ParallelPrims` and moves the cursor 3 units; `DrawPart` is proved equal to it, and `KnownLeafStep`, `UnknownLeafStep`, `MemberlessGroupStep`, `StepFrame`, `StepLabels` and `StepWarnings` state what it does |
| LayoutSpec.Run | CircuitModel.py:162-236 | the parts loop: each part processed in order, threading drawing, warnings and cursor; `DrawParts` is proved equal to it, and `RunAppend`, `RunFrame`, `RunCursor` and `RunOutput` state what it does |
| LayoutSpec.Layout | CircuitModel.py:157-236 | `draw_circuit`: the parts loop run over the `-`-separated parts of the string, from an empty drawing and the start position; `DrawCircuit` is proved equal to it, and `LayoutConcat`, `LayoutCursor`, `LayoutOutput` and `LayoutTokens` state what it does |
| CircuitModel.Drawing.constructor | CircuitModel.py:125 | a new drawing is empty |
| CircuitModel.Drawing.Add | CircuitModel.py:36 | adding to a drawing appends one primitive and keeps the earlier ones |
| CircuitModel.DrawParallelElements | CircuitModel.py:5-96 | drawing a group appends exactly the two junctions and the branches of `LayoutSpec.ParallelPrims`, in order, and returns the same drawing |
| CircuitModel.DrawBranch | CircuitModel.py:60-94 | one pass of the branch loop appends exactly the four primitives of branch `i` |
| CircuitModel.CollectParallel | CircuitModel.py:172-186 | the members and warnings collected from a group's tokens are those of `LayoutSpec.Recognise` |
| CircuitModel.DrawPart | CircuitModel.py:162-234 | one pass of the parts loop draws, reports and moves the cursor as one `LayoutSpec.Step` does |
| CircuitModel.DrawParts | CircuitModel.py:157-236 | the parts loop leaves the drawing and warnings that `LayoutSpec.Run` describes |
| CircuitModel.DrawCircuit | CircuitModel.py:98-236 | a new drawing holding exactly the primitives of the layout of the circuit string, and exactly its warnings |
| LayoutProperties.RecogniseAppend | CircuitModel.py:174-186 | recognising two runs of tokens keeps both results, in order |
| LayoutProperties.RecogniseMembers | CircuitModel.py:174-184 | a non-empty token becomes a member, labelled with the whole token, exactly when it is among the tokens and its type is a key; every member comes from a token |
| LayoutProperties.RecogniseWarnings | CircuitModel.py:174-186 | every non-empty token whose type is not a key is reported, and every warning reports such a token |
| LayoutProperties.RecogniseCounts | CircuitModel.py:174-186 | each non-empty token yields exactly one member or one warning; empty tokens yield neither |
| LayoutProperties.RecogniseTokens | CircuitModel.py:174-186 | a group's member labels are its drawable tokens in order, and its warnings are those for its other non-empty tokens, in order |
| LayoutProperties.BranchesSlice | CircuitModel.py:60-94 | primitives `4j` to `4j+3` of the branches are those of branch `j` |
| LayoutProperties.ParallelBranch | CircuitModel.py:35-94 | branch `j` of a group, with its junctions: the entry dot is at the start and the exit dot 3 units further along the direction; a wire runs from the entry to the branch start, which is level with the entry and offset by `Offset(j, n, spacing)`; the member's element is there, facing the direction; a wire runs from the element's end to the branch end, which is level with the exit at the same offset; a wire runs from there to the exit |
| LayoutProperties.Labels | CircuitModel.py:77-85 | the labels of the elements among the primitives are no more than the primitives |
| LayoutProperties.LabelsAppend | CircuitModel.py:36-94 | the labels of two runs of primitives are both runs' labels, in order |
| LayoutProperties.BranchesLabels | CircuitModel.py:60-94 | the first `k` branches draw the first `k` members' elements, in order |
| LayoutProperties.ParallelLabels | CircuitModel.py:31-96 | a group draws exactly one element per member, labelled and ordered as the members |
| LayoutProperties.RunAppend | CircuitModel.py:162-236 | processing two runs of parts is processing the first and then, from its state, the second |
| LayoutProperties.StepFrame | CircuitModel.py:162-234 | a part only appends to what has been drawn and reported; what it appends depends only on the cursor |
| LayoutProperties.RunFrame | CircuitModel.py:157-236 | the same holds for a run of parts |
| LayoutProperties.LayoutConcat | CircuitModel.py:160-236 | the layout of `a-b` is the layout of `a` followed by the layout of `b` drawn from where `a` left the cursor |
| LayoutProperties.KnownLeafStep | CircuitModel.py:210-232 | a part whose stripped text is not a group and whose type is a key is placed at the cursor, facing the direction and labelled with its stripped text, and the cursor moves to the element's end |
| LayoutProperties.UnknownLeafStep | CircuitModel.py:233-234 | a part whose stripped text is non-empty and has a type that is not a key draws nothing, adds exactly one warning naming the stripped text, and leaves the cursor |
| LayoutProperties.MemberlessGroupStep | CircuitModel.py:188-207 | a group with no recognised members draws nothing and leaves the cursor; only its tokens' warnings are added |
| LayoutProperties.GroupPart | CircuitModel.py:166-169 | `p(...)` is a group whose tokens are the stripped comma-separated pieces of its interior |
| LayoutProperties.UnbalancedIsLeaf | CircuitModel.py:166-217 | a part whose stripped text opens with `p(` but does not end with `)` is a single component of type `p`, which is a key, labelled with the whole stripped part |
| LayoutProperties.SinglePart | CircuitModel.py:160 | a string without `-` is laid out as one series part |
| LayoutProperties.BlankLayout | CircuitModel.py:163-210 | a part that is empty or all white space draws nothing, reports nothing and leaves the cursor |
| LayoutProperties.BlankPartSkipped | CircuitModel.py:160-210 | `a--b` and `a- -b` lay out exactly as `a-b` |
| LayoutProperties.TotalAdvance | CircuitModel.py:199-232 | with elements of non-negative length the cursor's total advance is never negative |
| LayoutProperties.RunCursor | CircuitModel.py:157-232 | a run of parts moves the cursor along the direction by the sum of each part's advance: an element's length, 3 for a group with members, 0 otherwise |
| LayoutProperties.LayoutCursor | CircuitModel.py:157-232 | the final cursor lies on the start's line along the direction, moved by the parts' total advance, and never behind the start when elements have a non-negative length |
| LayoutProperties.StepLabels | CircuitModel.py:162-229 | the labels one part draws are its own token when its type is a key, or its group's member labels |
| LayoutProperties.StepWarnings | CircuitModel.py:162-234 | the warnings one part adds are its own, or its group's |
| LayoutProperties.RunOutput | CircuitModel.py:157-236 | a run of parts draws its parts' labels and reports its parts' warnings, in order |
| LayoutProperties.LayoutOutput | CircuitModel.py:160-236 | the same for the whole circuit string |
| LayoutProperties.KnownTokens | CircuitModel.py:174-184 | at most one drawn token per token |
| LayoutProperties.UnknownWarnings | CircuitModel.py:185-186 | at most one warning per token |
| LayoutProperties.KnownTokensAppend | CircuitModel.py:174-186 | the drawn tokens and warnings of two runs of tokens are those of each run, in order |
| LayoutProperties.PartTokens | CircuitModel.py:162-234 | one part draws its tokens whose type is a key and reports the others |
| LayoutProperties.AllPartTokens | CircuitModel.py:157-236 | the same holds for a run of parts |
| LayoutProperties.LayoutTokens | CircuitModel.py:160-236 | the drawing holds one element per non-empty token whose type is a key, whether series part or group member, labelled with the token and in string order; every other non-empty token is reported once, in the same order |
| LayoutExamples.LeafLayout | CircuitModel.py:210-234 | a lone component is either placed at the start with the cursor at its end, or only reported |
| LayoutExamples.PairLayout | CircuitModel.py:166-207 | `p(a,b)` with two drawable tokens draws the two-branch group and moves the cursor 3 units |
| LayoutExamples.TwoBranches | CircuitModel.py:31-96 | a two-member group draws its two junctions, then branch 0, then branch 1 |
| LayoutExamples.LowerBranch | CircuitModel.py:60-94 | branch 0 of 2, drawn to the right with unit spacing, lies half a unit below the axis |
| LayoutExamples.UpperBranch | CircuitModel.py:60-94 | branch 1 of 2 lies half a unit above the axis |
| LayoutExamples.LeafPair | CircuitModel.py:160-234 | `a-b` places `a`, then places `b` at `a`'s end or reports it |
| LayoutExamples.TwoInSeries | CircuitModel.py:108-110 | `R0-R1` places two resistors end to end and leaves the cursor at the second one's end |
| LayoutExamples.UnknownInSeries | CircuitModel.py:209-234 | `R0-Z9` draws only `R0` and reports `Z9` with the exact warning text |
| LayoutExamples.MultiLetterKeys | CircuitModel.py:128-154 | `CPE` and `Zarc` are keys, yet `CPE1-Zarc0` draws `CPE1` as a `C` and reports `Zarc0` |
| LayoutExamples.PairPrimitives | CircuitModel.py:35-94 | the ten primitives of `p(R1,C1)` drawn to the right, with branches at -0.5 and +0.5 |
| LayoutExamples.ParallelPair | CircuitModel.py:166-207 | `p(R1,C1)` draws that group, reports nothing and ends with the cursor 3 units to the right |
| LayoutExamples.MixedGroup | CircuitModel.py:166-169 | the tokens of `p(R1,,Z9,CPE3)` are `R1`, an empty token, `Z9` and `CPE3` |
| LayoutExamples.MixedMembers | CircuitModel.py:174-186 | of those, `R1` and `CPE3` become members and `Z9` is reported; the empty token is skipped |
| LayoutExamples.UnbalancedGroup | CircuitModel.py:166-217 | `p(R1` is drawn as one component of type `p`, labelled `p(R1` |
| LayoutExamples.EmptyGroupTokens | CircuitModel.py:166-169 | `p()` is a group of one empty token |
| LayoutExamples.EmptyGroup | CircuitModel.py:188-207 | `p()` draws nothing, reports nothing and leaves the cursor |

## Left out

- `draw_custom_circuit` (CircuitModel.py:239-327) is not part of this model. It computes complex impedances and builds plots through foreign libraries.
- The `__main__` example at the end of CircuitModel.py is not part of this model. It builds a fitted circuit object from a foreign library.
- The drawing library is replaced by a list of primitives: junction dots, wires, and elements with a type, label, position and direction. Rendering is not modelled.
- Which glyph class each key maps to is not modelled, and neither are the duplicate keys of the table. Only key membership decides what is drawn.
- The second `label` calls (CircuitModel.py:87-88 and 229) are not modelled. They only change how labels look.
- The far end of an element is computed by the drawing library. The model takes every element to be `elemLen` long, the same for all glyphs.
- Printed warnings are returned as a sequence of their exact texts instead of going to the console.
- Coordinates are exact reals, not Python ints and floats, so `total_span/2` has no rounding.
- The default arguments (`start_pos=(0, 0)`, `direction='right'`, `spacing=1`) are not modelled. Every argument is explicit.
- `CircuitModel.DrawParallelElements` takes the members as (type, label) pairs. The source takes separate `elements` and `labels` lists, zips them, and defaults `labels` to `None`. The model does not capture the `labels=None` default, or how `zip` truncates lists of unequal length; the only caller passes lists of equal length.
- The white-space set used for stripping is the set of characters Python's `str.isspace` accepts, written out by code point.
- Malformed notation is not rejected, because the code does not reject it: an unbalanced `p(`, a nested group, or an empty string. The code is followed here rather than the stricter parse errors a reimplementation might add.
