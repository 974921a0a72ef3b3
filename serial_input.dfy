/**
 * The bounded receive buffer: bytes arrive from the serial port into a fixed
 * array, a scan finds the end of the first line, and the consumed prefix is
 * dropped by shifting the rest to the front.
 */
module SerialBuffer {
  import opened Limits

  /**
   * The offset of the first line terminator in s, or -1 when there is none.
   * This is the value the receive loop's end-of-line scan reports.
   */
  function FirstTerminator(s: seq<char>): (k: int)
    ensures -1 <= k < |s|
    ensures k == -1 <==> forall j :: 0 <= j < |s| ==> !IsTerminator(s[j])
    ensures 0 <= k ==> IsTerminator(s[k]) && forall j :: 0 <= j < k ==> !IsTerminator(s[j])
  {
    if |s| == 0 then -1
    else if IsTerminator(s[0]) then 0
    else
      var k := FirstTerminator(s[1..]);
      if k == -1 then -1 else k + 1
  }

  /** What is left of s once its first n bytes are removed; nothing when n reaches past the end. */
  function Drop(s: seq<char>, n: nat): (rest: seq<char>) {
    if n <= |s| then s[n..] else []
  }

  /** Removing a bytes and then b bytes removes a + b bytes. */
  lemma {:induction false} DropTwice(s: seq<char>, a: nat, b: nat)
    ensures Drop(Drop(s, a), b) == Drop(s, a + b)
  {
  }

  /** Removing the default count, the whole capacity, empties any buffer's contents. */
  lemma {:induction false} DropCapacity(s: seq<char>)
    requires |s| <= MAX_SERIAL_IN
    ensures Drop(s, MAX_SERIAL_IN) == []
  {
  }

  /**
   * When the scan finds a terminator at k, the contents split into a line
   * free of terminators, the terminator itself, and what is left after
   * removing k + 1 bytes: removing k + 1 bytes removes exactly the line and its end.
   */
  lemma {:induction false} LineThenRest(s: seq<char>)
    requires FirstTerminator(s) >= 0
    ensures var k := FirstTerminator(s);
      && s == s[..k] + [s[k]] + Drop(s, k + 1)
      && IsTerminator(s[k])
      && (forall c :: c in s[..k] ==> !IsTerminator(c))
      && |Drop(s, k + 1)| == |s| - (k + 1)
  {
    var k := FirstTerminator(s);
    assert s == s[..k] + [s[k]] + s[k + 1..];
    forall c | c in s[..k] ensures !IsTerminator(c) {
      var j :| 0 <= j < k && s[..k][j] == c;
    }
  }

  /** The receive buffer: a fixed array of MAX_SERIAL_IN bytes and the count of unread bytes at its front. */
  class SerialInput {
    const data: array<char>
    var dataLen: int

    ghost predicate Valid()
      reads this
    {
      data.Length == MAX_SERIAL_IN && 0 <= dataLen <= MAX_SERIAL_IN
    }

    /** The unread input: bytes [0, dataLen). */
    ghost function Contents(): seq<char>
      reads this, data
      requires Valid()
    {
      data[..dataLen]
    }

    constructor ()
      ensures Valid() && fresh(data) && Contents() == []
    {
      data := new char[MAX_SERIAL_IN](_ => NUL);
      dataLen := 0;
    }

    /**
     * Appends bytes from the front of source until source is exhausted or the
     * buffer is full, and returns what source has left. Bytes already held,
     * and the storage past the new end, are untouched.
     */
    method ReadSerial(source: seq<char>) returns (rest: seq<char>)
      requires Valid()
      modifies this, data
      ensures Valid()
      ensures |source| - |rest| == Min(|source|, MAX_SERIAL_IN - old(dataLen))
      ensures rest == source[|source| - |rest|..]
      ensures Contents() == old(Contents()) + source[..|source| - |rest|]
      ensures rest == [] || dataLen == MAX_SERIAL_IN
      ensures forall i :: dataLen <= i < MAX_SERIAL_IN ==> data[i] == old(data[i])
    {
      rest := source;
      while |rest| > 0 && dataLen < MAX_SERIAL_IN
        invariant Valid()
        invariant |rest| <= |source| && rest == source[|source| - |rest|..]
        invariant dataLen == old(dataLen) + (|source| - |rest|)
        invariant data[..dataLen] == old(data[..dataLen]) + source[..|source| - |rest|]
        invariant forall i :: dataLen <= i < MAX_SERIAL_IN ==> data[i] == old(data[i])
      {
        data[dataLen] := rest[0];
        rest := rest[1..];
        dataLen := dataLen + 1;
      }
    }

    /**
     * Scans the unread bytes for the first '\n' or '\r'; returns its index,
     * or -1 when none is held. The buffer is only read.
     */
    method FindEnd() returns (ipos: int)
      requires Valid()
      ensures ipos == FirstTerminator(Contents())
      ensures ipos == -1 <==> forall j :: 0 <= j < dataLen ==> !IsTerminator(data[j])
      ensures ipos != -1 ==> 0 <= ipos < dataLen && IsTerminator(data[ipos])
    {
      ipos := -1;
      var index := 0;
      while dataLen > index
        invariant 0 <= index <= MAX_SERIAL_IN + 1
        invariant ipos == -1 ==> index <= dataLen && forall j :: 0 <= j < index ==> !IsTerminator(data[j])
        invariant ipos != -1 ==>
          && index == MAX_SERIAL_IN + 1
          && 0 <= ipos < dataLen && IsTerminator(data[ipos])
          && forall j :: 0 <= j < ipos ==> !IsTerminator(data[j])
        decreases MAX_SERIAL_IN + 1 - index
      {
        if data[index] == '\n' || data[index] == '\r' {
          ipos := index;
          // leave the loop on the next test
          index := MAX_SERIAL_IN;
        }
        index := index + 1;
      }
      assert Contents() == data[..dataLen];
    }

    /**
     * Removes the first len bytes of the unread input (all of it by default):
     * the bytes after them move to the front and the count shrinks by len,
     * never below zero.
     */
    method ClearData(len: int := MAX_SERIAL_IN)
      requires Valid() && 0 <= len
      modifies this, data
      ensures Valid()
      ensures dataLen == if len < old(dataLen) then old(dataLen) - len else 0
      ensures forall i :: 0 <= i < dataLen ==> data[i] == old(data[len + i])
      ensures Contents() == Drop(old(Contents()), len)
    {
      var tLen := dataLen;
      var from := len;
      dataLen := 0;
      while from < tLen
        invariant len <= from && dataLen == from - len
        invariant from <= tLen || dataLen == 0
        invariant forall i :: 0 <= i < dataLen ==> data[i] == old(data[len + i])
        invariant forall i :: from <= i < MAX_SERIAL_IN ==> data[i] == old(data[i])
      {
        data[dataLen] := data[from];
        dataLen := dataLen + 1;
        from := from + 1;
      }
      assert Contents() == Drop(old(Contents()), len);
    }
  }
}
