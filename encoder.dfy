/**
 * The outbound side: one record written as SRC_ID,type,name,state[,msg]
 * followed by the line end that println appends.
 */
module Encoder {
  import opened Limits
  import opened CText

  /** What println writes after its argument (Arduino's Print writes CR LF). */
  const LINE_END: string := "\r\n"

  function DigitChar(d: nat): (c: char)
    requires d < 10
    ensures '0' <= c <= '9'
  {
    (('0' as int) + d) as char
  }

  /** The decimal digits of n, most significant first, without leading zeros. */
  function Digits(n: nat): (s: string)
    ensures 1 <= |s| && forall c :: c in s ==> '0' <= c <= '9'
    ensures |s| == 1 <==> n < 10
    ensures |s| <= 2 <==> n < 100
    ensures |s| <= 3 <==> n < 1000
    ensures n > 0 ==> s[0] != '0'
  {
    if n < 10 then [DigitChar(n)] else Digits(n / 10) + [DigitChar(n % 10)]
  }

  /** The text "%d" produces: a minus sign for negative values, then the digits. */
  function DecimalText(n: int): (s: string)
    ensures s != [] && forall c :: c in s ==> c == '-' || '0' <= c <= '9'
    ensures |s| < MSG_INT_SIZE <==> -99 <= n <= 999
    ensures (s[0] == '-') == (n < 0) && '-' !in s[1..]
    ensures n > 0 ==> s[0] != '0'
    ensures n < 0 ==> |s| >= 2 && s[1] != '0'
    ensures n == 0 ==> s == "0"
  {
    if n < 0 then
      var d := Digits(-n);
      assert ("-" + d)[1..] == d && ("-" + d)[1] == d[0];
      "-" + d
    else
      var d := Digits(n);
      assert d[0] in d && forall c :: c in d[1..] ==> c in d;
      d
  }

  /** The value a string of decimal digits denotes. */
  function DigitsValue(s: string): (v: int) {
    if s == [] then 0 else DigitsValue(s[..|s| - 1]) * 10 + (s[|s| - 1] as int - '0' as int)
  }

  /** Reading the digits back gives the number that was formatted. */
  lemma {:induction false} DigitsValueOfDigits(n: nat)
    ensures DigitsValue(Digits(n)) == n
  {
    if n >= 10 {
      DigitsValueOfDigits(n / 10);
      var s := Digits(n);
      assert s[..|s| - 1] == Digits(n / 10);
    }
  }

  /** Reading the sign and the digits back gives the number that was formatted. */
  lemma {:induction false} DecimalTextValue(n: int)
    ensures var s := DecimalText(n);
      if n < 0 then s[0] == '-' && -DigitsValue(s[1..]) == n else DigitsValue(s) == n
  {
    if n < 0 {
      DigitsValueOfDigits(-n);
      assert DecimalText(n)[1..] == Digits(-n);
    } else {
      DigitsValueOfDigits(n);
    }
  }

  /**
   * snprintf into a buffer of size bytes: the output beyond size - 1 characters
   * is discarded, so what remains is the longest prefix that leaves room for the NUL.
   */
  function Truncated(s: string, size: nat): (r: string)
    requires 1 <= size
    ensures |r| < size && r <= s
    ensures |s| < size ==> r == s
    ensures |s| >= size ==> r == s[..size - 1]
  {
    if |s| < size then s else s[..size - 1]
  }

  /** The fields written one after another with a comma between each two. */
  function Join(fs: seq<string>): (s: string) {
    if |fs| == 0 then ""
    else if |fs| == 1 then fs[0]
    else fs[0] + "," + Join(fs[1..])
  }

  /** The fields the encoder writes, in order; the fifth only when msg is not NULL. */
  function Fields(srcId: int, msgType: string, name: string, state: string, msg: Option<string>): (fs: seq<string>) {
    [DecimalText(srcId), msgType, name, state] + (if msg.Some? then [msg.value] else [])
  }

  /** The line the encoder writes, without its line end. */
  function Body(srcId: int, msgType: string, name: string, state: string, msg: Option<string>): (body: string) {
    Join(Fields(srcId, msgType, name, state, msg))
  }

  /** The body is the fields written out with a comma between each two. */
  lemma {:induction false} BodyText(srcId: int, msgType: string, name: string, state: string, msg: Option<string>)
    ensures Body(srcId, msgType, name, state, msg)
      == DecimalText(srcId) + "," + msgType + "," + name + ","
         + (match msg
            case None => state
            case Some(m) => state + "," + m)
  {
    var fs := Fields(srcId, msgType, name, state, msg);
    if msg.Some? {
      assert Join(fs[3..]) == state + "," + msg.value;
    } else {
      assert Join(fs[3..]) == state;
    }
    assert fs[1..][1..] == fs[2..] && fs[2..][1..] == fs[3..];
    assert Join(fs[2..]) == name + "," + Join(fs[3..]);
    assert Join(fs[1..]) == msgType + "," + Join(fs[2..]);
  }

  /** The text a possibly-NULL string argument prints as. */
  function MsgText(msg: Option<string>): (r: Option<string>) {
    match msg
    case None => None
    case Some(m) => Some(CStr(m))
  }

  /** The text written for one record; msg None is the NULL pointer, which leaves the fifth field out. */
  function SendSerial(srcId: int, msgType: string, name: string, state: string, msg: Option<string>): (line: string)
    ensures |line| >= |LINE_END| && line[|line| - |LINE_END|..] == LINE_END
  {
    DecimalText(srcId) + "," + CStr(msgType) + "," + CStr(name) + ","
      + (match msg
         case None => CStr(state)
         case Some(m) => CStr(state) + "," + CStr(m))
      + LINE_END
  }

  /**
   * What the text overload writes, for every argument: the fields built from the texts
   * the arguments hold, joined by commas, then the line end.
   */
  lemma {:induction false} SendSerialLayout(srcId: int, msgType: string, name: string, state: string, msg: Option<string>)
    ensures SendSerial(srcId, msgType, name, state, msg)
      == Body(srcId, CStr(msgType), CStr(name), CStr(state), MsgText(msg)) + LINE_END
  {
    BodyText(srcId, CStr(msgType), CStr(name), CStr(state), MsgText(msg));
  }

  /**
   * The integer overload: formats iMsg into a buffer of MSG_INT_SIZE bytes, keeping at most
   * three characters, and sends that text as the fifth field. A value from -99 to 999 is sent whole.
   */
  function SendSerialInt(srcId: int, msgType: string, name: string, state: string, iMsg: int): (line: string)
    ensures exists m :: |m| < MSG_INT_SIZE && m <= DecimalText(iMsg) && line == SendSerial(srcId, msgType, name, state, Some(m))
    ensures -99 <= iMsg <= 999 ==> line == SendSerial(srcId, msgType, name, state, Some(DecimalText(iMsg)))
  {
    var strMsg := Truncated(DecimalText(iMsg), MSG_INT_SIZE);
    SendSerial(srcId, msgType, name, state, Some(strMsg))
  }
}
