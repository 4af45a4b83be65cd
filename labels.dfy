/** Column-label normalisation: trim surrounding whitespace, lowercase,
    then turn every space into an underscore (app.py, line 9). Labels are
    ASCII strings; whitespace is the ASCII part of Python's `str.isspace`. */
module Labels {

  /** The ASCII characters Python's `str.strip()` removes: tab, line feed,
      vertical tab, form feed, carriage return, the four information
      separators 0x1C-0x1F, and space. */
  predicate IsSpace(c: char) {
    9 <= c as int <= 13 || 28 <= c as int <= 32
  }

  predicate IsUpper(c: char) {
    'A' <= c <= 'Z'
  }

  /** Python's `str.lower()` on one ASCII character. */
  function LowerChar(c: char): char {
    if IsUpper(c) then (c as int + 32) as char else c
  }

  /** The position of the first non-whitespace character at or after
      `lo`, or `|s|` when there is none. */
  function SkipLeading(s: string, lo: nat): (i: nat)
    requires lo <= |s|
    ensures lo <= i <= |s|
    ensures forall k :: lo <= k < i ==> IsSpace(s[k])
    ensures i < |s| ==> !IsSpace(s[i])
    decreases |s| - lo
  {
    if lo < |s| && IsSpace(s[lo]) then SkipLeading(s, lo + 1) else lo
  }

  /** The position just after the last non-whitespace character of
      `s[lo..hi]`, or `lo` when there is none. */
  function SkipTrailing(s: string, lo: nat, hi: nat): (j: nat)
    requires lo <= hi <= |s|
    ensures lo <= j <= hi
    ensures forall k :: j <= k < hi ==> IsSpace(s[k])
    ensures lo < j ==> !IsSpace(s[j - 1])
    decreases hi - lo
  {
    if lo < hi && IsSpace(s[hi - 1]) then SkipTrailing(s, lo, hi - 1) else hi
  }

  /** No leading and no trailing whitespace. */
  predicate Trimmed(s: string) {
    s == [] || (!IsSpace(s[0]) && !IsSpace(s[|s| - 1]))
  }

  /** `r` is the slice of `s` starting at `i`, and everything of `s`
      outside that slice is whitespace. */
  predicate SliceWithin(s: string, r: string, i: nat) {
    && i + |r| <= |s|
    && r == s[i..i + |r|]
    && (forall k :: 0 <= k < i ==> IsSpace(s[k]))
    && (forall k :: i + |r| <= k < |s| ==> IsSpace(s[k]))
  }

  /** `str.strip()`: the result is the slice of `s` left once the
      whitespace at both ends is removed, and only whitespace is removed. */
  function Strip(s: string): (r: string)
    ensures Trimmed(r) && |r| <= |s|
    ensures exists i: nat :: SliceWithin(s, r, i)
  {
    var i := SkipLeading(s, 0);
    var j := SkipTrailing(s, i, |s|);
    assert SliceWithin(s, s[i..j], i);
    s[i..j]
  }

  /** `str.lower()`: each character is lowercased, nothing else changes. */
  function Lower(s: string): (r: string)
    ensures |r| == |s|
    ensures forall k :: 0 <= k < |s| ==> r[k] == LowerChar(s[k])
  {
    if s == [] then [] else [LowerChar(s[0])] + Lower(s[1..])
  }

  /** `str.replace(" ", "_")`: each space becomes an underscore, every
      other character stays where it is. */
  function ReplaceSpaces(s: string): (r: string)
    ensures |r| == |s|
    ensures forall k :: 0 <= k < |s| ==> r[k] == (if s[k] == ' ' then '_' else s[k])
  {
    if s == [] then [] else [if s[0] == ' ' then '_' else s[0]] + ReplaceSpaces(s[1..])
  }

  /** The shape every normalised label has: no space character, no
      whitespace at either end, no uppercase letter. */
  predicate IsNormal(s: string) {
    Trimmed(s)
    && (forall k :: 0 <= k < |s| ==> s[k] != ' ')
    && (forall k :: 0 <= k < |s| ==> !IsUpper(s[k]))
  }

  /** The label rewrite of app.py line 9. */
  function Normalize(s: string): string {
    ReplaceSpaces(Lower(Strip(s)))
  }

  /** A normalised label contains no space, has no whitespace at either
      end and no uppercase letter, and is no longer than the raw label. */
  lemma NormalizeShape(s: string)
    ensures IsNormal(Normalize(s))
    ensures |Normalize(s)| <= |s|
  {
    var t := Strip(s);
    var l := Lower(t);
    var r := ReplaceSpaces(l);
    forall k | 0 <= k < |r| ensures !IsUpper(r[k]) && r[k] != ' ' {
      assert l[k] == LowerChar(t[k]);
    }
  }

  /** A label that already has the normal shape is left unchanged. */
  lemma NormalizeFixesNormal(s: string)
    requires IsNormal(s)
    ensures Normalize(s) == s
  {
  }

  /** Normalisation is idempotent. */
  lemma NormalizeIdempotent(s: string)
    ensures Normalize(Normalize(s)) == Normalize(s)
  {
    NormalizeShape(s);
    NormalizeFixesNormal(Normalize(s));
  }

  /** The labels Normalize leaves unchanged are exactly the normal ones. */
  lemma NormalizeFixedPoints(s: string)
    ensures Normalize(s) == s <==> IsNormal(s)
  {
    NormalizeShape(s);
    if IsNormal(s) {
      NormalizeFixesNormal(s);
    }
  }

  /** Every label of a row of labels, normalised, in the same positions. */
  function NormalizeAll(ls: seq<string>): (r: seq<string>)
    ensures |r| == |ls|
    ensures forall i :: 0 <= i < |ls| ==> r[i] == Normalize(ls[i])
  {
    if ls == [] then []
    else
      var tail := NormalizeAll(ls[1..]);
      assert forall i :: 1 <= i < |ls| ==> tail[i - 1] == Normalize(ls[i]);
      [Normalize(ls[0])] + tail
  }

  /** Normalising a label without whitespace at its ends, given the label
      it lowercases to and the label that then has its spaces replaced. */
  lemma NormalizeTrimmed(s: string, l: string, r: string)
    requires Trimmed(s) && |l| == |s| && |r| == |s|
    requires forall k :: 0 <= k < |s| ==> l[k] == LowerChar(s[k])
    requires forall k :: 0 <= k < |s| ==> r[k] == (if l[k] == ' ' then '_' else l[k])
    ensures Normalize(s) == r
  {
  }

  /** A name is among the normalised labels exactly when it is the normal
      form of one of the raw labels. */
  lemma NormalizeAllMembers(ls: seq<string>)
    ensures forall n :: n in NormalizeAll(ls) <==> exists i :: 0 <= i < |ls| && Normalize(ls[i]) == n
  {
    forall n | n in NormalizeAll(ls) ensures exists i :: 0 <= i < |ls| && Normalize(ls[i]) == n {
      var i :| 0 <= i < |ls| && NormalizeAll(ls)[i] == n;
      assert Normalize(ls[i]) == n;
    }
  }

  /** Every label of a normalised row of labels has the normal shape. */
  lemma NormalizeAllShape(ls: seq<string>)
    ensures forall i :: 0 <= i < |ls| ==> IsNormal(NormalizeAll(ls)[i])
  {
    forall i | 0 <= i < |ls| ensures IsNormal(NormalizeAll(ls)[i]) {
      NormalizeShape(ls[i]);
    }
  }
}
