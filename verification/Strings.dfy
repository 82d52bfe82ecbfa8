/** White space as JavaScript's trim() and \\s see it. A character stands for a UTF-16 code unit. */
module Strings {
  predicate Space(c: char) {
    || ('\t' <= c <= '\r') || c == ' ' || c == '\U{00A0}' || c == '\U{1680}' || ('\U{2000}' <= c <= '\U{200A}')
    || c == '\U{2028}' || c == '\U{2029}' || c == '\U{202F}' || c == '\U{205F}' || c == '\U{3000}' || c == '\U{FEFF}'
  }

  /** The text without leading white space, and without any around it. */
  function TrimStart(t: string): string { if t != "" && Space(t[0]) then TrimStart(t[1..]) else t }

  function TrimEnd(t: string): string { if t != "" && Space(t[|t| - 1]) then TrimEnd(t[..|t| - 1]) else t }

  function Trim(t: string): string { TrimEnd(TrimStart(t)) }

  lemma {:induction false} TrimEndGrows(t: string, n: nat)
    requires n <= |t|
    ensures |TrimEnd(t[..n])| <= |TrimEnd(t)|
  {
    if n == |t| {
      assert t[..n] == t;
    } else if Space(t[|t| - 1]) {
      TrimEndGrows(t[..|t| - 1], n);
      assert t[..|t| - 1][..n] == t[..n];
    } else {
      TrimEndShrinks(t[..n]);
    }
  }

  lemma {:induction false} TrimEndShrinks(t: string)
    ensures |TrimEnd(t)| <= |t|
  {
    if t != "" && Space(t[|t| - 1]) { TrimEndShrinks(t[..|t| - 1]); }
  }

  /** A longer beginning of a text is not shorter once it is trimmed. */
  lemma {:induction false} TrimGrows(t: string, n: nat)
    requires n <= |t|
    ensures |Trim(t[..n])| <= |Trim(t)|
  {
    if n > 0 && Space(t[0]) {
      TrimGrows(t[1..], n - 1);
      assert t[..n][1..] == t[1..][..n - 1];
    } else if n > 0 {
      TrimEndGrows(t, n);
    }
  }

  lemma {:induction false} TrimEndIs(t: string)
    ensures TrimEnd(t) <= t && forall k | |TrimEnd(t)| <= k < |t| :: Space(t[k])
    ensures TrimEnd(t) != "" ==> !Space(TrimEnd(t)[|TrimEnd(t)| - 1])
  {
    if t != "" && Space(t[|t| - 1]) {
      TrimEndIs(t[..|t| - 1]);
    }
  }

  lemma {:induction false} TrimStartIs(t: string) returns (i: nat)
    ensures i <= |t| && TrimStart(t) == t[i..] && forall k | 0 <= k < i :: Space(t[k])
    ensures i < |t| ==> !Space(t[i])
  {
    if t != "" && Space(t[0]) {
      var rest := TrimStartIs(t[1..]);
      i := rest + 1;
      forall k | 0 <= k < i ensures Space(t[k]) {
        if k > 0 { assert t[k] == t[1..][k - 1]; }
      }
    } else {
      i := 0;
    }
  }

  /** Trimming takes away the white space at both ends and nothing else. */
  lemma TrimIs(t: string) returns (i: nat)
    ensures i + |Trim(t)| <= |t| && Trim(t) == t[i..i + |Trim(t)|]
    ensures forall k | 0 <= k < i || i + |Trim(t)| <= k < |t| :: Space(t[k])
    ensures Trim(t) != "" ==> !Space(Trim(t)[0]) && !Space(Trim(t)[|Trim(t)| - 1])
  {
    i := TrimStartIs(t);
    var rest := t[i..];
    TrimEndIs(rest);
    assert Trim(t) == rest[..|Trim(t)|];
    forall k | i + |Trim(t)| <= k < |t| ensures Space(t[k]) {
      assert t[k] == rest[k - i];
    }
  }
}
