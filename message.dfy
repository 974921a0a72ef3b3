/**
 * The message record and the parser that fills it from one received line.
 * The line is split on ',' the way strtok splits it: runs of commas are
 * skipped, so tokens are the maximal non-empty comma-free runs.
 */
module Messages {
  import opened Limits
  import opened CText

  /** The text held by each of the record's five fields. */
  datatype Message = Message(source: string, msgType: string, name: string, info: string, extra: string)

  /** A zero-filled record: every field empty. */
  const Cleared := Message("", "", "", "", "")

  /** What the parser returns, and the record it leaves behind. */
  datatype Parsed = Parsed(ok: bool, msg: Message)

  /** The length of the comma-free run at the front of s. */
  function RunLength(s: string): (n: nat)
    ensures n <= |s| && ',' !in s[..n]
    ensures n < |s| ==> s[n] == ','
  {
    if s == [] || s[0] == ',' then 0 else 1 + RunLength(s[1..])
  }

  /**
   * The tokens strtok returns for s with delimiter ",": each is non-empty,
   * holds no comma and only characters of s; there are none exactly when s
   * is made of commas only.
   */
  function Tokens(s: string): (r: seq<string>)
    ensures forall i :: 0 <= i < |r| ==> r[i] != [] && ',' !in r[i] && forall c :: c in r[i] ==> c in s
    ensures r == [] <==> forall c :: c in s ==> c == ','
    decreases |s|
  {
    if s == [] then []
    else if s[0] == ',' then
      var r := Tokens(s[1..]);
      assert forall c :: c in s <==> c == s[0] || c in s[1..];
      r
    else
      var n := RunLength(s);
      var r := [s[..n]] + Tokens(s[n..]);
      assert forall c :: c in s[n..] ==> c in s;
      assert s[0] in s[..n] && s[0] in s;
      r
  }

  /** A field of capacity size can hold a text of at most size - 1 characters and its NUL. */
  function FieldSize(i: nat): (size: nat)
    requires i < 5
  {
    [MSG_INT_SIZE, MSG_INT_SIZE, NAME_SIZE, MAX_SERIAL_IN, MAX_SERIAL_IN][i]
  }

  /**
   * The parser's behaviour on a non-NULL line, as written in the source: copy the
   * line, zero-fill the record, then take tokens one by one, giving up at the
   * first missing or over-long one; the optional fifth token is kept only when
   * it fits.
   */
  function Parse(msgString: Option<string>, prior: Message): (r: Parsed)
    requires msgString.Some? ==> |CStr(msgString.value)| < MAX_SERIAL_IN
    ensures msgString.None? ==> r == Parsed(false, prior)
    ensures msgString.Some? ==> Fits(r.msg)
    ensures msgString.Some? ==> var t := Tokens(CStr(msgString.value));
      && (r.ok <==> FirstBad(t) == 4)
      && r.msg == if r.ok then Complete(t) else Filled(t, FirstBad(t))
  {
    match msgString
    case None => Parsed(false, prior)
    case Some(s) =>
      var t := Tokens(CStr(s));
      if !(|t| > 0 && |t[0]| < MSG_INT_SIZE) then Parsed(false, Cleared)
      else if !(|t| > 1 && |t[1]| < MSG_INT_SIZE) then Parsed(false, Cleared.(source := t[0]))
      else if !(|t| > 2 && |t[2]| < NAME_SIZE) then Parsed(false, Cleared.(source := t[0], msgType := t[1]))
      else if !(|t| > 3 && |t[3]| < MAX_SERIAL_IN) then
        Parsed(false, Cleared.(source := t[0], msgType := t[1], name := t[2]))
      else
        var extra := if |t| > 4 && |t[4]| < MAX_SERIAL_IN then t[4] else "";
        Parsed(true, Message(t[0], t[1], t[2], t[3], extra))
  }

  /** Every field's text fits its array with room for the terminating NUL, and holds no NUL. */
  predicate Fits(m: Message) {
    && |m.source| < MSG_INT_SIZE && |m.msgType| < MSG_INT_SIZE && |m.name| < NAME_SIZE
    && |m.info| < MAX_SERIAL_IN && |m.extra| < MAX_SERIAL_IN
    && NUL !in m.source && NUL !in m.msgType && NUL !in m.name && NUL !in m.info && NUL !in m.extra
  }

  /** The index of the first required token that is missing or too long for its field; 4 when all four are good. */
  function FirstBad(t: seq<string>): (k: nat)
    ensures k <= 4 && k <= |t|
    ensures forall i :: 0 <= i < k ==> |t[i]| < FieldSize(i)
    ensures k < 4 ==> k == |t| || |t[k]| >= FieldSize(k)
  {
    FirstBadFrom(t, 0)
  }

  function FirstBadFrom(t: seq<string>, i: nat): (k: nat)
    requires i <= 4 && i <= |t|
    requires forall j :: 0 <= j < i ==> |t[j]| < FieldSize(j)
    ensures i <= k <= 4 && k <= |t|
    ensures forall j :: 0 <= j < k ==> |t[j]| < FieldSize(j)
    ensures k < 4 ==> k == |t| || |t[k]| >= FieldSize(k)
    decreases 4 - i
  {
    if i == 4 || i == |t| || |t[i]| >= FieldSize(i) then i else FirstBadFrom(t, i + 1)
  }

  /** The record with its first k fields taken from the tokens and the rest empty. */
  function Filled(t: seq<string>, k: nat): (m: Message)
    requires k <= 4 && k <= |t|
  {
    Message(
      if k > 0 then t[0] else "",
      if k > 1 then t[1] else "",
      if k > 2 then t[2] else "",
      if k > 3 then t[3] else "",
      "")
  }

  /** The record a successful parse yields: four required tokens and the fifth when it fits. */
  function Complete(t: seq<string>): (m: Message)
    requires |t| >= 4
  {
    Filled(t, 4).(extra := if |t| > 4 && |t[4]| < MAX_SERIAL_IN then t[4] else "")
  }

  /** strcpy: copies the text and its terminating NUL to the front of dst; later bytes stay. */
  method StrCpy(dst: array<char>, src: string)
    requires NUL !in src && |src| < dst.Length
    modifies dst
    ensures dst[..|src|] == src && dst[|src|] == NUL
    ensures forall i :: |src| < i < dst.Length ==> dst[i] == old(dst[i])
    ensures CStr(dst[..]) == src
  {
    for i := 0 to |src|
      invariant dst[..i] == src[..i]
      invariant forall j :: i <= j < dst.Length ==> dst[j] == old(dst[j])
    {
      dst[i] := src[i];
    }
    dst[|src|] := NUL;
    CStrOfTerminated(dst[..], src);
  }

  /** The record as five fixed character arrays, each sized for its field. */
  class MessageRecord {
    const source: array<char>
    const msgType: array<char>
    const name: array<char>
    const info: array<char>
    const extra: array<char>

    ghost predicate Valid() {
      && source.Length == MSG_INT_SIZE && msgType.Length == MSG_INT_SIZE
      && name.Length == NAME_SIZE && info.Length == MAX_SERIAL_IN && extra.Length == MAX_SERIAL_IN
      && source != msgType && source != name && source != info && source != extra
      && msgType != name && msgType != info && msgType != extra
      && name != info && name != extra
      && info != extra
    }

    /** The text each field currently holds. */
    ghost function Text(): Message
      reads source, msgType, name, info, extra
    {
      Message(CStr(source[..]), CStr(msgType[..]), CStr(name[..]), CStr(info[..]), CStr(extra[..]))
    }

    constructor ()
      ensures Valid() && Text() == Cleared
      ensures fresh(source) && fresh(msgType) && fresh(name) && fresh(info) && fresh(extra)
    {
      source := new char[MSG_INT_SIZE](_ => NUL);
      msgType := new char[MSG_INT_SIZE](_ => NUL);
      name := new char[NAME_SIZE](_ => NUL);
      info := new char[MAX_SERIAL_IN](_ => NUL);
      extra := new char[MAX_SERIAL_IN](_ => NUL);
    }

    /** Zero-fills every byte of every field. */
    method ClearMessage()
      requires Valid()
      modifies source, msgType, name, info, extra
      ensures forall i :: 0 <= i < MSG_INT_SIZE ==> source[i] == NUL && msgType[i] == NUL
      ensures forall i :: 0 <= i < NAME_SIZE ==> name[i] == NUL
      ensures forall i :: 0 <= i < MAX_SERIAL_IN ==> info[i] == NUL && extra[i] == NUL
      ensures Text() == Cleared
    {
      forall i | 0 <= i < source.Length { source[i] := NUL; }
      forall i | 0 <= i < msgType.Length { msgType[i] := NUL; }
      forall i | 0 <= i < name.Length { name[i] := NUL; }
      forall i | 0 <= i < info.Length { info[i] := NUL; }
      forall i | 0 <= i < extra.Length { extra[i] := NUL; }
    }

    /**
     * Parses one line into the record. A NULL line fails and leaves the record
     * as it was; otherwise the record is zero-filled and the fields are copied
     * in order until a required token is missing or too long, with no rollback.
     */
    method ParseMessage(msgString: Option<string>) returns (ok: bool)
      requires Valid()
      requires msgString.Some? ==> |CStr(msgString.value)| < MAX_SERIAL_IN
      modifies source, msgType, name, info, extra
      ensures Parsed(ok, Text()) == Parse(msgString, old(Text()))
    {
      if msgString.None? {
        return false;
      }
      var tempMsg := CStr(msgString.value);
      ClearMessage();
      var t := Tokens(tempMsg);
      assert forall i :: 0 <= i < |t| ==> NUL !in t[i];
      if |t| > 0 && |t[0]| < MSG_INT_SIZE {
        StrCpy(source, t[0]);
      } else {
        return false;
      }
      if |t| > 1 && |t[1]| < MSG_INT_SIZE {
        StrCpy(msgType, t[1]);
      } else {
        return false;
      }
      if |t| > 2 && |t[2]| < NAME_SIZE {
        StrCpy(name, t[2]);
      } else {
        return false;
      }
      if |t| > 3 && |t[3]| < MAX_SERIAL_IN {
        StrCpy(info, t[3]);
      } else {
        return false;
      }
      if |t| > 4 && |t[4]| < MAX_SERIAL_IN {
        StrCpy(extra, t[4]);
      }
      return true;
    }
  }
}
