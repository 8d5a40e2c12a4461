/** Strings as the program handles them: trimming, lower-casing and picking the
    first non-blank field. White space is the ASCII white space. */
module Text {

  predicate IsSpace(c: char) {
    c == ' ' || '\t' <= c <= '\r'
  }

  /** No white space at either end. */
  predicate Trimmed(s: string) {
    s == [] || (!IsSpace(s[0]) && !IsSpace(s[|s| - 1]))
  }

  function TrimLeft(s: string): (t: string)
    ensures t == [] || !IsSpace(t[0])
  {
    if s != [] && IsSpace(s[0]) then TrimLeft(s[1..]) else s
  }

  function TrimRight(s: string): (t: string)
    ensures t == [] || !IsSpace(t[|t| - 1])
    ensures t <= s
  {
    if s != [] && IsSpace(s[|s| - 1]) then TrimRight(s[..|s| - 1]) else s
  }

  function Trim(s: string): (t: string)
    ensures Trimmed(t)
    ensures Trimmed(s) ==> t == s
  {
    var left := TrimLeft(s);
    var t := TrimRight(left);
    assert t != [] ==> t[0] == left[0];
    t
  }

  predicate Blank(s: string) {
    Trim(s) == []
  }

  function LowerChar(c: char): char {
    if 'A' <= c <= 'Z' then c - 'A' + 'a' else c
  }

  function Lower(s: string): (t: string)
    ensures |t| == |s|
  {
    seq(|s|, i requires 0 <= i < |s| => LowerChar(s[i]))
  }

  /** The same letter in either case, or the same character. */
  predicate SameLetter(a: char, b: char) {
    || a == b
    || ('A' <= a <= 'Z' && b as int == a as int + 32)
    || ('A' <= b <= 'Z' && a as int == b as int + 32)
  }

  /** Lower-casing makes two texts equal exactly if they differ in the case of letters only. */
  lemma LowerIgnoresCase(s: string, t: string)
    ensures Lower(s) == Lower(t) <==> |s| == |t| && forall i | 0 <= i < |s| :: SameLetter(s[i], t[i])
  {
    assert 'a' as int == 'A' as int + 32;
    forall i | 0 <= i < |s| && |s| == |t| ensures Lower(s)[i] == Lower(t)[i] <==> SameLetter(s[i], t[i]) {
    }
  }

  /** The first value that is not blank, trimmed; empty when all are blank. */
  function FirstNonEmpty(values: seq<string>): (r: string)
    ensures Trimmed(r)
    ensures r == [] <==> forall i :: 0 <= i < |values| ==> Blank(values[i])
    ensures r != [] ==> exists i :: 0 <= i < |values| && r == Trim(values[i])
  {
    if values == [] then []
    else if !Blank(values[0]) then Trim(values[0])
    else
      var r := FirstNonEmpty(values[1..]);
      assert forall i | 1 <= i < |values| :: values[i] == values[1..][i - 1];
      r
  }

  lemma {:induction false} FirstNonEmptyIs(values: seq<string>, i: nat)
    requires i < |values| && !Blank(values[i]) && forall j | 0 <= j < i :: Blank(values[j])
    ensures FirstNonEmpty(values) == Trim(values[i])
  {
    hide Trim;
    if i > 0 {
      FirstNonEmptyIs(values[1..], i - 1);
    }
  }

  /** Trimming cuts white space off both ends and nothing else. */
  lemma TrimCutsSpace(s: string) returns (i: nat, j: nat)
    ensures i <= j <= |s| && Trim(s) == s[i..j]
    ensures forall k | 0 <= k < i || j <= k < |s| :: IsSpace(s[k])
  {
    i := LeftCut(s);
    var n := RightCut(TrimLeft(s));
    j := i + n;
    assert s[i..][..n] == s[i..j];
    forall k | j <= k < |s| ensures IsSpace(s[k]) {
      assert s[k] == TrimLeft(s)[k - i];
    }
  }

  lemma {:induction false} LeftCut(s: string) returns (i: nat)
    ensures i <= |s| && TrimLeft(s) == s[i..] && forall k | 0 <= k < i :: IsSpace(s[k])
  {
    i := 0;
    if s != [] && IsSpace(s[0]) {
      i := LeftCut(s[1..]);
      assert forall k | 1 <= k <= i :: s[k] == s[1..][k - 1];
      i := i + 1;
    }
  }

  lemma {:induction false} RightCut(s: string) returns (j: nat)
    ensures j <= |s| && TrimRight(s) == s[..j] && forall k | j <= k < |s| :: IsSpace(s[k])
  {
    j := |s|;
    if s != [] && IsSpace(s[|s| - 1]) {
      j := RightCut(s[..|s| - 1]);
    }
  }
}
