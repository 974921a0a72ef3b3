/** The C-string view of a character buffer, and the in-place line-break scrubber. */
module CText {
  import opened Limits

  /** strlen: the index of the first NUL, or the whole length when the buffer holds none. */
  function CLen(a: seq<char>): (n: nat)
    ensures n <= |a|
    ensures n < |a| ==> a[n] == NUL
    ensures forall i :: 0 <= i < n ==> a[i] != NUL
  {
    if |a| == 0 || a[0] == NUL then 0 else 1 + CLen(a[1..])
  }

  /** The text a char buffer holds: everything before its first NUL. */
  function CStr(a: seq<char>): (s: string)
    ensures s <= a && NUL !in s
    ensures |s| == |a| || a[|s|] == NUL
  {
    a[..CLen(a)]
  }

  /** A text with no NUL in it reads back unchanged. */
  lemma {:induction false} CStrOfText(s: string)
    requires NUL !in s
    ensures CStr(s) == s
  {
  }

  /** A buffer holding a text followed by a NUL reads back as that text, whatever follows. */
  lemma {:induction false} CStrOfTerminated(a: seq<char>, s: string)
    requires NUL !in s && |s| < |a| && a[..|s|] == s && a[|s|] == NUL
    ensures CStr(a) == s
  {
  }

  /**
   * Replaces every line feed and carriage return before the first NUL with a space;
   * every other character, and so the text's length, is left as it was.
   */
  method CleanString(msgString: array<char>)
    requires NUL in msgString[..]
    modifies msgString
    ensures forall i :: 0 <= i < msgString.Length ==>
      msgString[i] == if i < CLen(old(msgString[..])) && IsTerminator(old(msgString[i])) then ' ' else old(msgString[i])
    ensures CLen(msgString[..]) == CLen(old(msgString[..]))
    ensures forall i :: 0 <= i < CLen(msgString[..]) ==> !IsTerminator(msgString[i])
  {
    var len := CLen(msgString[..]);
    for i := 0 to len
      invariant forall j :: 0 <= j < i ==>
        msgString[j] == if IsTerminator(old(msgString[j])) then ' ' else old(msgString[j])
      invariant forall j :: i <= j < msgString.Length ==> msgString[j] == old(msgString[j])
    {
      var tC := msgString[i];
      if IsTerminator(tC) {
        msgString[i] := ' ';
      }
    }
    ghost var before := old(msgString[..]);
    ghost var after := msgString[..];
    assert forall j :: 0 <= j < len ==> after[j] != NUL;
    assert len < |after| ==> after[len] == before[len] == NUL;
  }
}
