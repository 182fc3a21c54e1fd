/**
 * The circuit notation: series parts separated by `-`, each either a leaf
 * token such as `R0` or a parallel group `p(R1,C1)`, and the table of
 * component type keys a token's first character is looked up in.
 *
 * `Split` and `Strip` model Python's `str.split(sep)` and `str.strip()`,
 * which the layout engine applies to the circuit string.
 */
module Notation {

  // ---------------------------------------------------------------------
  // str.split(sep)
  // ---------------------------------------------------------------------

  /**
   * Python's `s.split(sep)` for a one-character separator: the maximal
   * runs between separators, always at least one (`"".split("-") == [""]`).
   */
  function Split(s: string, sep: char): (parts: seq<string>)
    ensures |parts| >= 1
  {
    SplitFrom(s, "", sep)
  }

  /** Split `s` when `current` is the part read so far. */
  function SplitFrom(s: string, current: string, sep: char): (parts: seq<string>)
    ensures |parts| >= 1
  {
    if s == [] then [current]
    else if s[0] == sep then [current] + SplitFrom(s[1..], "", sep)
    else SplitFrom(s[1..], current + [s[0]], sep)
  }

  /** No part of a split contains the separator. */
  lemma SplitPartsFree(s: string, sep: char)
    ensures forall k :: 0 <= k < |Split(s, sep)| ==> sep !in Split(s, sep)[k]
  {
    SplitFromPartsFree(s, "", sep);
  }

  lemma {:induction false} SplitFromPartsFree(s: string, current: string, sep: char)
    requires sep !in current
    ensures forall k :: 0 <= k < |SplitFrom(s, current, sep)| ==> sep !in SplitFrom(s, current, sep)[k]
  {
    if s != [] {
      if s[0] == sep {
        SplitFromPartsFree(s[1..], "", sep);
      } else {
        assert sep !in current + [s[0]];
        SplitFromPartsFree(s[1..], current + [s[0]], sep);
      }
    }
  }

  /** Python's `sep.join(parts)`, the inverse of `Split`. */
  function Join(parts: seq<string>, sep: char): string
  {
    if parts == [] then ""
    else if |parts| == 1 then parts[0]
    else parts[0] + [sep] + Join(parts[1..], sep)
  }

  lemma {:induction false} JoinSplitFrom(s: string, current: string, sep: char)
    ensures Join(SplitFrom(s, current, sep), sep) == current + s
  {
    if s == [] {
      assert current + s == current;
    } else if s[0] == sep {
      var rest := SplitFrom(s[1..], "", sep);
      JoinSplitFrom(s[1..], "", sep);
      assert ([current] + rest)[1..] == rest;
      assert current + [sep] + ("" + s[1..]) == current + s;
    } else {
      JoinSplitFrom(s[1..], current + [s[0]], sep);
      assert current + [s[0]] + s[1..] == current + s;
    }
  }

  /** Joining the parts of a split restores the string. */
  lemma JoinSplit(s: string, sep: char)
    ensures Join(Split(s, sep), sep) == s
  {
    JoinSplitFrom(s, "", sep);
    assert "" + s == s;
  }

  /** A separator-free prefix is added to the part being read. */
  lemma {:induction false} SplitFromPrefix(w: string, t: string, current: string, sep: char)
    requires sep !in w
    ensures SplitFrom(w + t, current, sep) == SplitFrom(t, current + w, sep)
  {
    if w == [] {
      assert w + t == t;
      assert current + w == current;
    } else {
      assert (w + t)[0] == w[0];
      assert (w + t)[1..] == w[1..] + t;
      SplitFromPrefix(w[1..], t, current + [w[0]], sep);
      assert current + [w[0]] + w[1..] == current + w;
    }
  }

  lemma {:induction false} SplitFromAtSeparator(a: string, b: string, current: string, sep: char)
    ensures SplitFrom(a + [sep] + b, current, sep) == SplitFrom(a, current, sep) + Split(b, sep)
  {
    var s := a + [sep] + b;
    if a == [] {
      assert s[0] == sep && s[1..] == b;
    } else {
      assert s[0] == a[0];
      assert s[1..] == a[1..] + [sep] + b;
      if a[0] == sep {
        SplitFromAtSeparator(a[1..], b, "", sep);
      } else {
        SplitFromAtSeparator(a[1..], b, current + [a[0]], sep);
      }
    }
  }

  /** Splitting at a separator splits the string into the parts on either side. */
  lemma SplitAtSeparator(a: string, b: string, sep: char)
    ensures Split(a + [sep] + b, sep) == Split(a, sep) + Split(b, sep)
  {
    SplitFromAtSeparator(a, b, "", sep);
  }

  /** Splitting a join of separator-free parts gives the parts back. */
  lemma {:induction false} SplitJoin(parts: seq<string>, sep: char)
    requires |parts| >= 1
    requires forall k :: 0 <= k < |parts| ==> sep !in parts[k]
    ensures Split(Join(parts, sep), sep) == parts
  {
    var w := parts[0];
    SplitFromPrefix(w, "", "", sep);
    assert w + "" == w && "" + w == w;
    assert Split(w, sep) == [w];
    if |parts| > 1 {
      SplitJoin(parts[1..], sep);
      SplitAtSeparator(w, Join(parts[1..], sep), sep);
      assert parts == [w] + parts[1..];
    }
  }

  // ---------------------------------------------------------------------
  // str.strip()
  // ---------------------------------------------------------------------

  /** Python's `str.isspace()`: the ASCII and Unicode white-space characters. */
  predicate IsSpace(c: char)
  {
    c == ' ' || ('\t' <= c <= '\r') || ('\U{001C}' <= c <= '\U{001F}')
    || c == '\U{0085}' || c == '\U{00A0}' || c == '\U{1680}'
    || ('\U{2000}' <= c <= '\U{200A}') || c == '\U{2028}' || c == '\U{2029}'
    || c == '\U{202F}' || c == '\U{205F}' || c == '\U{3000}'
  }

  /** A character that is not in `s` is not in any stripped form of it. */
  lemma StripKeepsOut(s: string, c: char)
    requires c !in s
    ensures c !in TrimStart(s) && c !in Strip(s)
  {
    var a := TrimStart(s);
    var b := Strip(s);
    TrimStartSuffix(s);
    TrimEndPrefix(a);
    forall k | 0 <= k < |a| ensures a[k] != c {
      assert a[k] == s[|s| - |a| + k];
    }
    forall k | 0 <= k < |b| ensures b[k] != c {
      assert b[k] == a[k];
    }
  }

  predicate AllSpace(s: string)
  {
    forall k :: 0 <= k < |s| ==> IsSpace(s[k])
  }

  /** Neither end of `s` is white space. */
  predicate IsStripped(s: string)
  {
    s == [] || (!IsSpace(s[0]) && !IsSpace(s[|s| - 1]))
  }

  /** Python's `s.lstrip()`. */
  function TrimStart(s: string): (r: string)
    ensures |r| <= |s|
    ensures r == [] || !IsSpace(r[0])
  {
    if s != [] && IsSpace(s[0]) then TrimStart(s[1..]) else s
  }

  /** `lstrip` removes a prefix of white space and keeps the rest. */
  lemma {:induction false} TrimStartSuffix(s: string)
    ensures TrimStart(s) == s[|s| - |TrimStart(s)|..]
    ensures AllSpace(s[..|s| - |TrimStart(s)|])
  {
    if s != [] && IsSpace(s[0]) {
      TrimStartSuffix(s[1..]);
      var n := |s| - |TrimStart(s)|;
      assert s[1..][n - 1..] == s[n..];
      assert s[..n] == [s[0]] + s[1..][..n - 1];
    }
  }

  /** Python's `s.rstrip()`. */
  function TrimEnd(s: string): (r: string)
    ensures |r| <= |s|
    ensures r == [] || !IsSpace(r[|r| - 1])
  {
    if s != [] && IsSpace(s[|s| - 1]) then TrimEnd(s[..|s| - 1]) else s
  }

  /** `rstrip` removes a suffix of white space and keeps the rest. */
  lemma {:induction false} TrimEndPrefix(s: string)
    ensures TrimEnd(s) == s[..|TrimEnd(s)|]
    ensures AllSpace(s[|TrimEnd(s)|..])
  {
    if s != [] && IsSpace(s[|s| - 1]) {
      var t := s[..|s| - 1];
      TrimEndPrefix(t);
      var n := |TrimEnd(s)|;
      assert t[..n] == s[..n];
      assert s[n..] == t[n..] + [s[|s| - 1]];
    }
  }

  /** Python's `s.strip()`: drop the white space at both ends. */
  function Strip(s: string): (r: string)
    ensures IsStripped(r)
    ensures |r| <= |s|
  {
    TrimEndPrefix(TrimStart(s));
    TrimEnd(TrimStart(s))
  }

  lemma {:induction false} TrimStartSpaces(w: string, r: string)
    requires AllSpace(w)
    requires r == [] || !IsSpace(r[0])
    ensures TrimStart(w + r) == r
  {
    if w != [] {
      assert (w + r)[1..] == w[1..] + r;
      TrimStartSpaces(w[1..], r);
    } else {
      assert w + r == r;
    }
  }

  lemma {:induction false} TrimEndSpaces(r: string, w: string)
    requires AllSpace(w)
    requires r == [] || !IsSpace(r[|r| - 1])
    ensures TrimEnd(r + w) == r
  {
    if w != [] {
      assert (r + w)[..|r + w| - 1] == r + w[..|w| - 1];
      TrimEndSpaces(r, w[..|w| - 1]);
    } else {
      assert r + w == r;
    }
  }

  /**
   * `Strip` keeps exactly the core: white space around a stripped string is
   * removed and nothing else is.
   */
  lemma StripSurrounded(w1: string, r: string, w2: string)
    requires AllSpace(w1) && AllSpace(w2) && IsStripped(r)
    ensures Strip(w1 + r + w2) == r
  {
    if r == [] {
      assert w1 + r + w2 == w1 + w2;
      assert AllSpace(w1 + w2);
      TrimStartSpaces(w1 + w2, []);
      assert w1 + w2 + [] == w1 + w2;
      TrimEndSpaces([], []);
    } else {
      assert w1 + r + w2 == w1 + (r + w2);
      TrimStartSpaces(w1, r + w2);
      TrimEndSpaces(r, w2);
    }
  }

  /** Stripping twice is stripping once. */
  lemma StripIdempotent(s: string)
    ensures Strip(Strip(s)) == Strip(s)
  {
    StrippedUnchanged(Strip(s));
  }

  /** A string without white space at its ends is its own stripped form. */
  lemma StrippedUnchanged(r: string)
    requires IsStripped(r)
    ensures Strip(r) == r
  {
    TrimStartSpaces([], r);
    assert [] + r == r;
    TrimEndSpaces(r, []);
    assert r + [] == r;
  }

  // ---------------------------------------------------------------------
  // Component type keys
  // ---------------------------------------------------------------------

  /** The keys of the table from component type to element glyph. */
  const ComponentKeys: set<string> := {
    "R", "C", "L", "D", "LED", "BAT", "SW", "GND", "s", "p",
    "W", "Wo", "Ws", "CPE", "Q", "La", "G", "Gs", "K", "Zarc", "TLMQ", "T"
  }

  /**
   * The first characters of the one-letter keys. A type tag is a single
   * character, so these are the only keys a lookup can hit (`KnownTags`).
   */
  const TagChars: set<char> := {'R', 'C', 'L', 'D', 's', 'p', 'W', 'Q', 'G', 'K', 'T'}

  /**
   * A token's type tag is its first character alone, and the token is
   * recognised when that tag is a key of the table.
   */
  predicate IsKnown(token: string)
    requires token != []
  {
    token[0] in TagChars
  }

  /**
   * Looking a one-character tag up in the key table is membership in
   * `TagChars`: a multi-letter key such as `CPE`, `LED` or `Zarc` can never
   * match, so `CPE1` is recognised by its `C` and `Zarc0` is not recognised.
   */
  lemma KnownTags(token: string)
    requires token != []
    ensures IsKnown(token) <==> [token[0]] in ComponentKeys
  {
    var tag := [token[0]];
    if tag in ComponentKeys {
      assert |tag| == 1;
      assert tag in {"R", "C", "L", "D", "s", "p", "W", "Q", "G", "K", "T"};
      assert tag[0] in TagChars;
    }
  }

  /** The warning text reported for a token whose type tag is not a key. */
  function UnknownTypeWarning(tag: char, token: string): string
  {
    "Warning: Unknown component type '" + [tag] + "' in '" + token + "'"
  }

  // ---------------------------------------------------------------------
  // Series parts
  // ---------------------------------------------------------------------

  /** One series part of the circuit string, after trimming. */
  datatype Segment =
    | Group(tokens: seq<string>)  // `p(a, b, ...)`: the trimmed comma-separated tokens, empty ones included
    | Leaf(token: string)         // any other non-empty part
    | Blank                       // an empty part, such as the middle of `R0--R1`

  predicate StartsWith(s: string, prefix: string)
  {
    |prefix| <= |s| && s[..|prefix|] == prefix
  }

  predicate EndsWith(s: string, suffix: string)
  {
    |suffix| <= |s| && s[|s| - |suffix|..] == suffix
  }

  /** A part is a parallel group when it starts with `p(` and ends with `)`. */
  predicate IsGroupSyntax(part: string)
  {
    StartsWith(part, "p(") && EndsWith(part, ")")
  }

  /** The text between `p(` and the final `)` of a group part. */
  function GroupInterior(part: string): (inner: string)
    requires IsGroupSyntax(part)
    ensures part == "p(" + inner + ")"
  {
    assert |part| >= 3 by {
      assert part[..2][1] == '(' && part[|part| - 1..][0] == ')';
    }
    var inner := part[2..|part| - 1];
    assert part == part[..2] + inner + part[|part| - 1..];
    inner
  }

  function StripAll(parts: seq<string>): (r: seq<string>)
    ensures |r| == |parts|
    ensures forall k :: 0 <= k < |r| ==> r[k] == Strip(parts[k])
  {
    seq(|parts|, k requires 0 <= k < |parts| => Strip(parts[k]))
  }

  /** Classify one series part of the circuit string. */
  function Classify(raw: string): Segment
  {
    var part := Strip(raw);
    if IsGroupSyntax(part) then Group(StripAll(Split(GroupInterior(part), ',')))
    else if part != [] then Leaf(part)
    else Blank
  }

  /**
   * A part is blank exactly when it is all white space, a group exactly
   * when its trimmed text reads `p(...)`, and otherwise a leaf holding its
   * trimmed text. A group's tokens are trimmed and free of commas.
   */
  lemma ClassifyCases(raw: string)
    ensures Classify(raw).Blank? <==> Strip(raw) == []
    ensures Classify(raw).Group? <==> IsGroupSyntax(Strip(raw))
    ensures Classify(raw).Leaf? ==> Classify(raw).token == Strip(raw) != [] && !IsGroupSyntax(Strip(raw))
    ensures Classify(raw).Group? ==>
              forall k :: 0 <= k < |Classify(raw).tokens| ==>
                ',' !in Classify(raw).tokens[k] && IsStripped(Classify(raw).tokens[k])
  {
    var part := Strip(raw);
    if IsGroupSyntax(part) {
      var pieces := Split(GroupInterior(part), ',');
      SplitPartsFree(GroupInterior(part), ',');
      forall k | 0 <= k < |pieces| ensures ',' !in Strip(pieces[k]) {
        StripKeepsOut(pieces[k], ',');
      }
    } else if part != [] {
      assert !IsGroupSyntax(part);
    }
  }

  /** The tokens a segment hands to the type lookup, in order. */
  function SegmentTokens(seg: Segment): seq<string>
  {
    match seg
    case Group(tokens) => tokens
    case Leaf(token) => [token]
    case Blank => []
  }
}
