/**
 * What the two ends of the protocol guarantee together: a line written by the
 * encoder is found whole by the end-of-line scan and parses back to the fields
 * it was built from, and the parser's documented behaviour on concrete lines.
 */
module RoundTrip {
  import opened Limits
  import opened CText
  import opened SerialBuffer
  import opened Messages
  import opened Encoder

  /** A text that can travel as one field of capacity size: non-empty, short enough, no delimiter, line end or NUL. */
  predicate IsField(f: string, size: nat) {
    0 < |f| < size && forall c :: c in f ==> c != ',' && !IsTerminator(c) && c != NUL
  }

  /** strtok takes a comma-free text as one token and resumes after the comma that follows it. */
  lemma {:induction false} TokensOfField(f: string, rest: string)
    requires f != [] && ',' !in f
    ensures Tokens(f) == [f]
    ensures Tokens(f + "," + rest) == [f] + Tokens(rest)
  {
    var s := f + "," + rest;
    var n := RunLength(s);
    forall i | 0 <= i < |f| ensures s[i] != ',' {
      assert s[i] == f[i] && f[i] in f;
    }
    assert s[|f|] == ',';
    assert s[..n] == f;
    assert s[n..] == "," + rest;
    assert Tokens(s[n..]) == Tokens(rest);
    assert f[0] in f;
    var m := RunLength(f);
    assert f[..m] == f && f[m..] == [];
    assert Tokens(f) == [f] + Tokens([]);
  }

  /** strtok recovers every field of a comma-joined list of non-empty comma-free fields. */
  lemma {:induction false} TokensOfJoin(fs: seq<string>)
    requires forall i :: 0 <= i < |fs| ==> fs[i] != [] && ',' !in fs[i]
    ensures Tokens(Join(fs)) == fs
  {
    if |fs| == 1 {
      TokensOfField(fs[0], "");
    } else if |fs| > 1 {
      TokensOfJoin(fs[1..]);
      TokensOfField(fs[0], Join(fs[1..]));
    }
  }

  /** strtok skips a leading delimiter: a comma in front of a text adds no token. */
  lemma {:induction false} TokensSkipComma(s: string)
    ensures Tokens("," + s) == Tokens(s)
  {
    assert ("," + s)[1..] == s;
  }

  /** Joining texts free of line ends and NUL gives such a text. */
  lemma {:induction false} JoinIsClean(fs: seq<string>)
    requires forall i :: 0 <= i < |fs| ==> forall c :: c in fs[i] ==> !IsTerminator(c) && c != NUL
    ensures forall c :: c in Join(fs) ==> !IsTerminator(c) && c != NUL
  {
    if |fs| > 1 {
      JoinIsClean(fs[1..]);
      assert forall c :: c in Join(fs) ==> c in fs[0] || c == ',' || c in Join(fs[1..]);
    }
  }

  /**
   * With fields that fit the protocol, the encoder writes the body followed by the line end,
   * and the body is free of line ends and of NUL.
   */
  lemma {:induction false} SendSerialShape(srcId: int, msgType: string, name: string, state: string, msg: Option<string>)
    requires IsField(msgType, MSG_INT_SIZE) && IsField(name, NAME_SIZE) && IsField(state, MAX_SERIAL_IN)
    requires msg.Some? ==> IsField(msg.value, MAX_SERIAL_IN)
    ensures var body := Body(srcId, msgType, name, state, msg);
      && SendSerial(srcId, msgType, name, state, msg) == body + LINE_END
      && NUL !in body
      && forall c :: c in body ==> !IsTerminator(c)
  {
    CStrOfText(msgType);
    CStrOfText(name);
    CStrOfText(state);
    if msg.Some? {
      CStrOfText(msg.value);
    }
    assert MsgText(msg) == msg;
    SendSerialLayout(srcId, msgType, name, state, msg);
    BodyIsClean(srcId, msgType, name, state, msg);
  }

  /** A body built from fields that fit holds no line end and no NUL. */
  lemma {:induction false} BodyIsClean(srcId: int, msgType: string, name: string, state: string, msg: Option<string>)
    requires IsField(msgType, MSG_INT_SIZE) && IsField(name, NAME_SIZE) && IsField(state, MAX_SERIAL_IN)
    requires msg.Some? ==> IsField(msg.value, MAX_SERIAL_IN)
    ensures var body := Body(srcId, msgType, name, state, msg);
      NUL !in body && forall c :: c in body ==> !IsTerminator(c)
  {
    JoinIsClean(Fields(srcId, msgType, name, state, msg));
  }

  /** The tokens of an encoded body are exactly the fields it was built from. */
  lemma {:induction false} TokensOfBody(srcId: int, msgType: string, name: string, state: string, msg: Option<string>)
    requires IsField(msgType, MSG_INT_SIZE) && IsField(name, NAME_SIZE) && IsField(state, MAX_SERIAL_IN)
    requires msg.Some? ==> IsField(msg.value, MAX_SERIAL_IN)
    ensures Tokens(Body(srcId, msgType, name, state, msg)) == Fields(srcId, msgType, name, state, msg)
  {
    assert ',' !in DecimalText(srcId);
    TokensOfJoin(Fields(srcId, msgType, name, state, msg));
  }

  /**
   * The receiver's end-of-line scan over an encoded line, and whatever arrived
   * after it, stops right after the body; clearing the body and the first byte
   * of the line end leaves the rest of the line end and the bytes that followed.
   */
  lemma {:induction false} FindEndOfSentLine(srcId: int, msgType: string, name: string, state: string, msg: Option<string>, more: string)
    requires IsField(msgType, MSG_INT_SIZE) && IsField(name, NAME_SIZE) && IsField(state, MAX_SERIAL_IN)
    requires msg.Some? ==> IsField(msg.value, MAX_SERIAL_IN)
    ensures var body := Body(srcId, msgType, name, state, msg);
      var received := SendSerial(srcId, msgType, name, state, msg) + more;
      && FirstTerminator(received) == |body|
      && received[..|body|] == body
      && Drop(received, |body| + 1) == LINE_END[1..] + more
  {
    SendSerialShape(srcId, msgType, name, state, msg);
    var body := Body(srcId, msgType, name, state, msg);
    assert SendSerial(srcId, msgType, name, state, msg) + more == body + LINE_END + more;
    ScanOfTerminatedLine(body, more);
  }

  /** A text free of line ends, then LINE_END and more: the scan stops at the LINE_END. */
  lemma {:induction false} ScanOfTerminatedLine(body: string, more: string)
    requires forall c :: c in body ==> !IsTerminator(c)
    ensures var received := body + LINE_END + more;
      && FirstTerminator(received) == |body|
      && received[..|body|] == body
      && Drop(received, |body| + 1) == LINE_END[1..] + more
  {
    var received := body + LINE_END + more;
    assert received[|body|] == '\r';
    assert forall j :: 0 <= j < |body| ==> received[j] == body[j] && body[j] in body;
    assert received[..|body|] == body;
    assert received[|body| + 1..] == LINE_END[1..] + more;
  }

  /**
   * Encode then parse: when the fields fit the protocol and the body fits the parser's
   * 100-byte scratch copy, parsing the body succeeds and yields the fields; extra is the
   * fifth field when one was sent and stays empty otherwise.
   */
  lemma {:induction false} ParseOfSentLine(srcId: int, msgType: string, name: string, state: string, msg: Option<string>, prior: Message)
    requires -99 <= srcId <= 999
    requires IsField(msgType, MSG_INT_SIZE) && IsField(name, NAME_SIZE) && IsField(state, MAX_SERIAL_IN)
    requires msg.Some? ==> IsField(msg.value, MAX_SERIAL_IN)
    requires |Body(srcId, msgType, name, state, msg)| < MAX_SERIAL_IN
    ensures var body := Body(srcId, msgType, name, state, msg);
      && |CStr(body)| < MAX_SERIAL_IN
      && Parse(Some(body), prior) == Parsed(true, Message(DecimalText(srcId), msgType, name, state,
                                                          if msg.Some? then msg.value else ""))
  {
    var body := Body(srcId, msgType, name, state, msg);
    var fs := Fields(srcId, msgType, name, state, msg);
    BodyIsClean(srcId, msgType, name, state, msg);
    TokensOfBody(srcId, msgType, name, state, msg);
    assert NUL !in body && |body| < MAX_SERIAL_IN && Tokens(body) == fs;
    assert |fs| >= 4 && fs[0] == DecimalText(srcId) && fs[1] == msgType && fs[2] == name && fs[3] == state;
    assert |fs[0]| < MSG_INT_SIZE && |fs[1]| < MSG_INT_SIZE && |fs[2]| < NAME_SIZE && |fs[3]| < MAX_SERIAL_IN;
    var expected := Message(DecimalText(srcId), msgType, name, state, if msg.Some? then msg.value else "");
    assert Complete(fs) == expected;
    ParseOfGoodTokens(body, fs, expected, prior);
  }

  /** A NUL-free line whose first four tokens fit their fields parses to the complete record. */
  lemma {:induction false} ParseOfGoodTokens(s: string, t: seq<string>, expected: Message, prior: Message)
    requires NUL !in s && |s| < MAX_SERIAL_IN && Tokens(s) == t
    requires |t| >= 4 && |t[0]| < MSG_INT_SIZE && |t[1]| < MSG_INT_SIZE && |t[2]| < NAME_SIZE && |t[3]| < MAX_SERIAL_IN
    requires Complete(t) == expected
    ensures |CStr(s)| < MAX_SERIAL_IN && Parse(Some(s), prior) == Parsed(true, expected)
  {
    CStrOfText(s);
  }

  /** The integer overload round-trips the value's decimal text when it has at most three characters. */
  lemma {:induction false} ParseOfSentInt(srcId: int, msgType: string, name: string, state: string, iMsg: int, prior: Message)
    requires -99 <= srcId <= 999 && -99 <= iMsg <= 999
    requires IsField(msgType, MSG_INT_SIZE) && IsField(name, NAME_SIZE) && IsField(state, MAX_SERIAL_IN)
    requires |Body(srcId, msgType, name, state, Some(DecimalText(iMsg)))| < MAX_SERIAL_IN
    ensures var body := Body(srcId, msgType, name, state, Some(DecimalText(iMsg)));
      && SendSerialInt(srcId, msgType, name, state, iMsg) == body + LINE_END
      && Parse(Some(body), prior) == Parsed(true, Message(DecimalText(srcId), msgType, name, state, DecimalText(iMsg)))
  {
    var m := DecimalText(iMsg);
    assert IsField(m, MAX_SERIAL_IN);
    SendSerialShape(srcId, msgType, name, state, Some(m));
    ParseOfSentLine(srcId, msgType, name, state, Some(m), prior);
  }

  /** A line with at least four well-sized tokens is accepted: the record holds the four required tokens. */
  lemma {:induction false} ParseAccepts(s: string, prior: Message)
    requires |CStr(s)| < MAX_SERIAL_IN
    requires var t := Tokens(CStr(s));
      |t| >= 4 && |t[0]| < MSG_INT_SIZE && |t[1]| < MSG_INT_SIZE && |t[2]| < NAME_SIZE && |t[3]| < MAX_SERIAL_IN
    ensures var t := Tokens(CStr(s)); var r := Parse(Some(s), prior);
      r.ok && r.msg.source == t[0] && r.msg.msgType == t[1] && r.msg.name == t[2] && r.msg.info == t[3]
  {
  }

  /** A line of nothing but commas (or of nothing) yields no token, so parsing fails with a zero-filled record. */
  lemma {:induction false} ParseOfCommas(s: string, prior: Message)
    requires |s| < MAX_SERIAL_IN && forall c :: c in s ==> c == ','
    ensures Parse(Some(s), prior) == Parsed(false, Cleared)
  {
    CStrOfText(s);
  }

  /** A NUL-free line whose required tokens stop fitting at index k < 4 fails, leaving the tokens before k. */
  lemma {:induction false} ParseOfBadTokens(s: string, t: seq<string>, k: nat, prior: Message)
    requires NUL !in s && |s| < MAX_SERIAL_IN && Tokens(s) == t
    requires k < 4 && FirstBad(t) == k
    ensures |CStr(s)| < MAX_SERIAL_IN && Parse(Some(s), prior) == Parsed(false, Filled(t, k))
  {
    CStrOfText(s);
  }

  /** Four fields are written with a comma between each two. */
  lemma {:induction false} JoinOfFour(a: string, b: string, c: string, d: string)
    ensures Join([a, b, c, d]) == a + "," + b + "," + c + "," + d
  {
    var fs := [a, b, c, d];
    assert fs[1..][1..] == fs[2..] && fs[2..][1..] == fs[3..] && fs[3..] == [d];
    assert Join(fs[2..]) == c + "," + d;
    assert Join(fs[1..]) == b + "," + Join(fs[2..]);
  }

  /** The fields 5, 2, Door1 and trp are written as "5,2,Door1,trp". */
  lemma {:induction false} JoinOfDoorFields()
    ensures Join(["5", "2", "Door1", "trp"]) == "5,2,Door1,trp"
  {
    JoinOfFour("5", "2", "Door1", "trp");
  }

  /** "5,2,Door1,trp" splits into its four fields. */
  lemma {:induction false} TokensOfDoorLine()
    ensures Tokens("5,2,Door1,trp") == ["5", "2", "Door1", "trp"]
  {
    JoinOfDoorFields();
    TokensOfJoin(["5", "2", "Door1", "trp"]);
  }

  /**
   * A line that splits like "5,2,Door1,trp" parses to source 5, type 2, name Door1,
   * state trp and no extra.
   */
  lemma {:induction false} ParseExampleDoor(s: string, prior: Message)
    requires NUL !in s && |s| < MAX_SERIAL_IN && Tokens(s) == ["5", "2", "Door1", "trp"]
    ensures Parse(Some(s), prior) == Parsed(true, Message("5", "2", "Door1", "trp", ""))
  {
    var t := Tokens(s);
    assert |t| == 4 && t[0] == "5" && t[1] == "2" && t[2] == "Door1" && t[3] == "trp";
    assert |t[0]| == 1 && |t[1]| == 1 && |t[2]| == 5 && |t[3]| == 3;
    ParseOfGoodTokens(s, t, Message(t[0], t[1], t[2], t[3], ""), prior);
  }

  /** The record line "5,2,Door1,trp" parses to source 5, type 2, name Door1, info trp and no extra. */
  lemma {:induction false} ParseDoorLine(prior: Message)
    ensures Parse(Some("5,2,Door1,trp"), prior) == Parsed(true, Message("5", "2", "Door1", "trp", ""))
  {
    var s := "5,2,Door1,trp";
    assert |s| == 13 && forall c :: c in s ==> c != NUL;
    TokensOfDoorLine();
    ParseExampleDoor(s, prior);
  }

  /** A leading empty field produces no token: ",2,Door1,trp" splits into three tokens, not four. */
  lemma {:induction false} TokensOfLeadingComma()
    ensures Tokens(",2,Door1,trp") == ["2", "Door1", "trp"]
  {
    var s := ",2,Door1,trp";
    var fs := ["2", "Door1", "trp"];
    assert Join(fs[2..]) == "trp";
    assert Join(fs[1..]) == "Door1,trp";
    assert Join(fs) == s[1..];
    TokensOfJoin(fs);
  }

  /**
   * A line that splits like ",2,Door1,trp": the leading empty field was skipped, so "2"
   * becomes the source and "Door1", four characters or more, is rejected as the type;
   * only the source is left set.
   */
  lemma {:induction false} ParseExampleLeadingComma(s: string, prior: Message)
    requires NUL !in s && |s| < MAX_SERIAL_IN && Tokens(s) == ["2", "Door1", "trp"]
    ensures Parse(Some(s), prior) == Parsed(false, Cleared.(source := "2"))
  {
    var t := Tokens(s);
    assert |t| == 3 && t[0] == "2" && |t[0]| == 1 && |t[1]| == 5;
    ParseOfLongType(s, t, prior);
  }

  /** A message type of four or more bytes stops the parse with only the source set. */
  lemma {:induction false} ParseOfLongType(s: string, t: seq<string>, prior: Message)
    requires NUL !in s && |s| < MAX_SERIAL_IN && Tokens(s) == t
    requires |t| > 1 && |t[0]| < MSG_INT_SIZE && |t[1]| >= MSG_INT_SIZE
    ensures Parse(Some(s), prior) == Parsed(false, Cleared.(source := t[0]))
  {
    CStrOfText(s);
  }

  /** The line ",2,Door1,trp" itself fails with only the source, 2, set. */
  lemma {:induction false} ParseLeadingCommaLine(prior: Message)
    ensures Parse(Some(",2,Door1,trp"), prior) == Parsed(false, Cleared.(source := "2"))
  {
    var s := ",2,Door1,trp";
    assert |s| == 12 && forall c :: c in s ==> c != NUL;
    TokensOfLeadingComma();
    ParseExampleLeadingComma(s, prior);
  }

  /** "5,2,Door1" splits into three tokens. */
  lemma {:induction false} TokensOfThreeFields()
    ensures Tokens("5,2,Door1") == ["5", "2", "Door1"]
  {
    var fs := ["5", "2", "Door1"];
    assert Join(fs[2..]) == "Door1";
    assert Join(fs[1..]) == "2,Door1";
    assert Join(fs) == "5,2,Door1";
    TokensOfJoin(fs);
  }

  /** A line that splits like "5,2,Door1" has only three tokens: parsing fails with the first three fields set. */
  lemma {:induction false} ParseExampleThreeTokens(s: string, prior: Message)
    requires NUL !in s && |s| < MAX_SERIAL_IN && Tokens(s) == ["5", "2", "Door1"]
    ensures Parse(Some(s), prior) == Parsed(false, Message("5", "2", "Door1", "", ""))
  {
    var t := Tokens(s);
    assert |t| == 3 && t[0] == "5" && t[1] == "2" && t[2] == "Door1";
    assert |t[0]| == 1 && |t[1]| == 1 && |t[2]| == 5;
    assert FirstBad(t) == 3;
    ParseOfBadTokens(s, t, 3, prior);
  }
  /** The line "5,2,Door1" itself fails with source, type and name set. */
  lemma {:induction false} ParseThreeFieldLine(prior: Message)
    ensures Parse(Some("5,2,Door1"), prior) == Parsed(false, Message("5", "2", "Door1", "", ""))
  {
    var s := "5,2,Door1";
    assert |s| == 9 && forall c :: c in s ==> c != NUL;
    TokensOfThreeFields();
    ParseExampleThreeTokens(s, prior);
  }


  /** The values 5 and 7 are printed as single digits. */
  lemma {:induction false} DecimalOfSingleDigits()
    ensures DecimalText(5) == "5" && DecimalText(7) == "7"
  {
  }

  /** The integer overload: source 5, type 1, Zone1, trp and the value 7 give "5,1,Zone1,trp,7" and the line end. */
  lemma {:induction false} SendSerialIntExample()
    ensures SendSerialInt(5, "1", "Zone1", "trp", 7) == "5,1,Zone1,trp,7\r\n"
  {
    DecimalOfSingleDigits();
    assert SendSerialInt(5, "1", "Zone1", "trp", 7) == SendSerial(5, "1", "Zone1", "trp", Some("7"));
    SendSerialZoneLine();
  }

  /** The text overload with the fields 5, 1, Zone1, trp and 7. */
  lemma {:induction false} SendSerialZoneLine()
    ensures SendSerial(5, "1", "Zone1", "trp", Some("7")) == "5,1,Zone1,trp,7\r\n"
  {
    DecimalOfSingleDigits();
    ZoneLineTexts();
  }

  /** The example's string arguments are plain texts: each reads back as itself. */
  lemma {:induction false} ZoneLineTexts()
    ensures CStr("1") == "1" && CStr("Zone1") == "Zone1" && CStr("trp") == "trp" && CStr("7") == "7"
  {
    CStrOfText("1");
    CStrOfText("Zone1");
    CStrOfText("trp");
    CStrOfText("7");
  }

  /** snprintf into four bytes keeps "123" of 1234. */
  lemma {:induction false} TruncatedExample()
    ensures Truncated(DecimalText(1234), MSG_INT_SIZE) == "123"
  {
    assert Digits(1) == "1";
    assert Digits(12) == "12";
    assert Digits(123) == "123";
    assert Digits(1234) == "1234";
  }

  /**
   * An integer whose text has four characters or more, any value below -99 or above 999,
   * loses its tail: only the first three characters are sent.
   */
  lemma {:induction false} SendSerialIntTruncates(srcId: int, msgType: string, name: string, state: string, iMsg: int)
    requires iMsg < -99 || 999 < iMsg
    ensures |DecimalText(iMsg)| >= MSG_INT_SIZE
    ensures SendSerialInt(srcId, msgType, name, state, iMsg)
      == SendSerial(srcId, msgType, name, state, Some(DecimalText(iMsg)[..MSG_INT_SIZE - 1]))
  {
  }

  /**
   * The per-field limits do not bound the line: a name of 29 and a state of 99 characters
   * each fit their fields, yet the body is longer than the 100 bytes the receive buffer
   * and the parser's scratch copy hold.
   */
  lemma {:induction false} FieldLimitsAllowOverlongBody()
    ensures var name := seq(29, _ => 'n'); var state := seq(99, _ => 's');
      && IsField(name, NAME_SIZE) && IsField(state, MAX_SERIAL_IN)
      && |Body(1, "1", name, state, None)| >= MAX_SERIAL_IN
  {
    var name := seq(29, _ => 'n');
    var state := seq(99, _ => 's');
    var fs := Fields(1, "1", name, state, None);
    assert fs[3..] == [state];
    assert Join(fs[2..]) == name + "," + Join(fs[3..]);
    assert |Join(fs[1..])| >= |Join(fs[2..])|;
    assert |Join(fs)| >= |Join(fs[1..])|;
  }
}
