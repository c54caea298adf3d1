/** The two JavaScript string operations the core applies to user-typed
    coordinates: `String.prototype.split` with a one-character separator and
    `String.prototype.trim`. `Join` is the inverse of `Split`. */
module Text {

  /** A code point `trim` strips: the ECMAScript WhiteSpace set (TAB, VT, FF,
      ZWNBSP and the Unicode space separators) together with the LineTerminator
      set (LF, CR, LINE SEPARATOR, PARAGRAPH SEPARATOR). */
  predicate IsSpace(c: char) {
    var n := c as int;
    n == 0x09 || n == 0x0A || n == 0x0B || n == 0x0C || n == 0x0D || n == 0x20
    || n == 0xA0 || n == 0x1680 || (0x2000 <= n <= 0x200A) || n == 0x2028
    || n == 0x2029 || n == 0x202F || n == 0x205F || n == 0x3000 || n == 0xFEFF
  }

  predicate AllSpace(s: string) {
    forall i :: 0 <= i < |s| ==> IsSpace(s[i])
  }

  /** Number of occurrences of `c` in `s`. */
  function Count(s: string, c: char): nat {
    if |s| == 0 then 0 else (if s[0] == c then 1 else 0) + Count(s[1..], c)
  }

  /** `s.split(sep)`: the maximal separator-free pieces of `s`, in order. An
      empty string splits into one empty piece, and n separators give n + 1
      pieces. */
  function Split(s: string, sep: char): (parts: seq<string>)
    ensures |parts| == Count(s, sep) + 1
    ensures forall i :: 0 <= i < |parts| ==> sep !in parts[i]
    decreases |s|
  {
    if |s| == 0 then [""]
    else
      var rest := Split(s[1..], sep);
      if s[0] == sep then [""] + rest
      else [[s[0]] + rest[0]] + rest[1..]
  }

  /** `parts.join(sep)`. */
  function Join(parts: seq<string>, sep: char): string
    decreases |parts|
  {
    if |parts| == 0 then ""
    else if |parts| == 1 then parts[0]
    else parts[0] + [sep] + Join(parts[1..], sep)
  }

  /** Splitting loses nothing: joining the pieces back gives the input. */
  lemma {:induction false} JoinSplit(s: string, sep: char)
    ensures Join(Split(s, sep), sep) == s
    decreases |s|
  {
    if |s| > 0 {
      var rest := Split(s[1..], sep);
      JoinSplit(s[1..], sep);
      if s[0] == sep {
        assert Join([""] + rest, sep) == "" + [sep] + Join(rest, sep);
      } else if |rest| == 1 {
        assert Split(s, sep) == [[s[0]] + rest[0]];
      } else {
        var parts := Split(s, sep);
        assert parts[1..] == rest[1..];
        assert Join(rest, sep) == rest[0] + [sep] + Join(rest[1..], sep);
        assert Join(parts, sep) == [s[0]] + rest[0] + [sep] + Join(rest[1..], sep);
      }
      assert s == [s[0]] + s[1..];
    }
  }

  lemma {:induction false} SplitNoSeparator(p: string, sep: char)
    requires sep !in p
    ensures Split(p, sep) == [p]
    decreases |p|
  {
    if |p| > 0 {
      SplitNoSeparator(p[1..], sep);
      assert p == [p[0]] + p[1..];
    }
  }

  lemma {:induction false} SplitAfterPiece(p: string, sep: char, t: string)
    requires sep !in p
    ensures Split(p + [sep] + t, sep) == [p] + Split(t, sep)
    decreases |p|
  {
    var s := p + [sep] + t;
    if |p| == 0 {
      assert s[1..] == t;
    } else {
      assert s[1..] == p[1..] + [sep] + t;
      SplitAfterPiece(p[1..], sep, t);
      assert p == [p[0]] + p[1..];
    }
  }

  /** Joining separator-free pieces and splitting again gives the pieces back,
      so `Split` and `Join` are inverse to each other. */
  lemma {:induction false} SplitJoin(parts: seq<string>, sep: char)
    requires |parts| >= 1
    requires forall i :: 0 <= i < |parts| ==> sep !in parts[i]
    ensures Split(Join(parts, sep), sep) == parts
    decreases |parts|
  {
    if |parts| == 1 {
      SplitNoSeparator(parts[0], sep);
    } else {
      SplitJoin(parts[1..], sep);
      SplitAfterPiece(parts[0], sep, Join(parts[1..], sep));
      assert parts == [parts[0]] + parts[1..];
    }
  }

  /** Length of the run of white space that `trim` drops from the front. */
  function LeadingSpace(s: string): (n: nat)
    ensures n <= |s|
    ensures forall i :: 0 <= i < n ==> IsSpace(s[i])
    ensures n < |s| ==> !IsSpace(s[n])
    decreases |s|
  {
    if |s| > 0 && IsSpace(s[0]) then 1 + LeadingSpace(s[1..]) else 0
  }

  /** Length of the run of white space that `trim` drops from the back. */
  function TrailingSpace(s: string): (n: nat)
    ensures n <= |s|
    ensures forall i :: |s| - n <= i < |s| ==> IsSpace(s[i])
    ensures n < |s| ==> !IsSpace(s[|s| - 1 - n])
    decreases |s|
  {
    if |s| > 0 && IsSpace(s[|s| - 1]) then 1 + TrailingSpace(s[..|s| - 1]) else 0
  }

  /** White space at the tail of a suffix is white space at the tail of the whole. */
  lemma SuffixTailSpace(s: string, lead: nat, n: nat)
    requires lead <= |s| && n <= |s| - lead
    requires forall i :: |s| - lead - n <= i < |s| - lead ==> IsSpace(s[lead..][i])
    ensures forall i :: |s| - n <= i < |s| ==> IsSpace(s[i])
  {
    forall i | |s| - n <= i < |s| ensures IsSpace(s[i]) {
      assert s[i] == s[lead..][i - lead];
    }
  }

  /** `s.trim()`: what is left after dropping exactly the leading and the
      trailing white space. */
  function Trim(s: string): (r: string)
    ensures |r| > 0 ==> !IsSpace(r[0]) && !IsSpace(r[|r| - 1])
    ensures var lead := LeadingSpace(s);
      && lead + |r| <= |s|
      && r == s[lead..lead + |r|]
      && (forall i :: 0 <= i < lead ==> IsSpace(s[i]))
      && (forall i :: lead + |r| <= i < |s| ==> IsSpace(s[i]))
  {
    var lead := LeadingSpace(s);
    var trail := TrailingSpace(s[lead..]);
    SuffixTailSpace(s, lead, trail);
    assert lead + trail < |s| ==> s[|s| - 1 - trail] == s[lead..][|s| - lead - 1 - trail];
    s[lead..|s| - trail]
  }

  /** Text holding a non-space character, such as a comma, never trims to "". */
  lemma NotBlankWithSeparator(s: string, i: nat)
    requires i < |s| && !IsSpace(s[i])
    ensures Trim(s) != ""
  {
    TrimEmptyIffAllSpace(s);
  }

  /** A string trims to the empty (falsy) string exactly when it is all white space. */
  lemma TrimEmptyIffAllSpace(s: string)
    ensures Trim(s) == "" <==> AllSpace(s)
  {
  }
}
