/**
 * rmprefix: a line filter that erases every space and every tab of a line,
 * wherever it stands (not only a leading prefix). The model is the
 * transformation of one line; reading stdin and writing stdout are left out.
 */
module RmPrefix {
  import opened Wrappers

  /** The two characters named in find_first_of(" \t"). */
  predicate IsBlank(c: char) {
    c == ' ' || c == '\t'
  }

  /** find_first_of(" \t", from): the first blank at or after `from`, None for npos. */
  function FindBlank(s: string, from: nat): (r: Option<nat>)
    requires from <= |s|
    ensures r.Some? ==> from <= r.value < |s| && IsBlank(s[r.value])
    ensures r.Some? ==> forall k :: from <= k < r.value ==> !IsBlank(s[k])
    ensures r.None? ==> forall k :: from <= k < |s| ==> !IsBlank(s[k])
    decreases |s| - from
  {
    if from == |s| then None
    else if IsBlank(s[from]) then Some(from)
    else FindBlank(s, from + 1)
  }

  /** Reference definition: the line with its blanks left out, other characters in order. */
  function Squeezed(s: string): string {
    if s == [] then [] else (if IsBlank(s[0]) then [] else [s[0]]) + Squeezed(s[1..])
  }

  /** Number of spaces and tabs in a line. */
  function BlankCount(s: string): nat {
    if s == [] then 0 else (if IsBlank(s[0]) then 1 else 0) + BlankCount(s[1..])
  }

  /** Number of occurrences of c in s. */
  function Occurrences(s: string, c: char): nat {
    if s == [] then 0 else (if s[0] == c then 1 else 0) + Occurrences(s[1..], c)
  }

  lemma {:induction false} SqueezedAppend(a: string, b: string)
    ensures Squeezed(a + b) == Squeezed(a) + Squeezed(b)
  {
    if a != [] {
      assert (a + b)[0] == a[0];
      assert (a + b)[1..] == a[1..] + b;
      SqueezedAppend(a[1..], b);
    } else {
      assert a + b == b;
    }
  }

  /** Erasing one blank does not change what the filter leaves. */
  lemma EraseBlankKeepsSqueezed(s: string, f: nat)
    requires f < |s| && IsBlank(s[f])
    ensures Squeezed(s[..f] + s[f + 1..]) == Squeezed(s)
  {
    assert s == s[..f] + ([s[f]] + s[f + 1..]);
    SqueezedAppend(s[..f], [s[f]] + s[f + 1..]);
    SqueezedAppend(s[..f], s[f + 1..]);
    assert ([s[f]] + s[f + 1..])[1..] == s[f + 1..];
  }

  /** The output holds no space and no tab. */
  lemma {:induction false} SqueezedHasNoBlank(s: string)
    ensures forall k :: 0 <= k < |Squeezed(s)| ==> !IsBlank(Squeezed(s)[k])
  {
    if s != [] {
      SqueezedHasNoBlank(s[1..]);
    }
  }

  /** Output length is input length minus the number of blanks. */
  lemma {:induction false} SqueezedLength(s: string)
    ensures |Squeezed(s)| == |s| - BlankCount(s)
  {
    if s != [] {
      SqueezedLength(s[1..]);
    }
  }

  /** Every other character is kept: each non-blank character occurs as often as before. */
  lemma {:induction false} SqueezedKeepsOthers(s: string, c: char)
    requires !IsBlank(c)
    ensures Occurrences(Squeezed(s), c) == Occurrences(s, c)
  {
    if s != [] {
      SqueezedKeepsOthers(s[1..], c);
      var head := if IsBlank(s[0]) then [] else [s[0]];
      OccurrencesAppend(head, Squeezed(s[1..]), c);
    }
  }

  lemma {:induction false} OccurrencesAppend(a: string, b: string, c: char)
    ensures Occurrences(a + b, c) == Occurrences(a, c) + Occurrences(b, c)
  {
    if a != [] {
      assert (a + b)[0] == a[0];
      assert (a + b)[1..] == a[1..] + b;
      OccurrencesAppend(a[1..], b, c);
    } else {
      assert a + b == b;
    }
  }

  /** A line with no space or tab is output unchanged. */
  lemma {:induction false} SqueezedWithoutBlanks(s: string)
    requires forall k :: 0 <= k < |s| ==> !IsBlank(s[k])
    ensures Squeezed(s) == s
  {
    if s != [] {
      SqueezedWithoutBlanks(s[1..]);
    }
  }

  /** Filtering twice is filtering once. */
  lemma SqueezedIdempotent(s: string)
    ensures Squeezed(Squeezed(s)) == Squeezed(s)
  {
    SqueezedHasNoBlank(s);
    SqueezedWithoutBlanks(Squeezed(s));
  }

  /**
   * The loop of rmprefix.cc: find the first blank, erase it, and resume the
   * search at the same position, until find_first_of answers npos.
   */
  method EraseBlanks(line: string) returns (out: string)
    ensures out == Squeezed(line)
    ensures forall k :: 0 <= k < |out| ==> !IsBlank(out[k])
    ensures |out| == |line| - BlankCount(line)
  {
    out := line;
    var found: Option<nat> := FindBlank(out, 0);
    while found.Some?
      invariant found.Some? ==> found.value < |out| && IsBlank(out[found.value])
      invariant found.Some? ==> forall k :: 0 <= k < found.value ==> !IsBlank(out[k])
      invariant found.None? ==> forall k :: 0 <= k < |out| ==> !IsBlank(out[k])
      invariant Squeezed(out) == Squeezed(line)
      decreases |out|
    {
      var f := found.value;
      EraseBlankKeepsSqueezed(out, f);
      out := out[..f] + out[f + 1..];
      found := FindBlank(out, f);
    }
    SqueezedWithoutBlanks(out);
    SqueezedLength(line);
  }
}
