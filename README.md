# Serial-line alarm protocol: framing, parsing and encoding (hs_general.h)

This project models the message layer that the security panel's nodes share
over a serial line. Each line has the form `SRC_ID,type,name,state[,extra]`
followed by a line end. It has three parts:

- **The receive buffer `SerialInput`** is a fixed array of `MAX_SERIAL_IN` (100)
  characters plus the count `dataLen` of unread bytes at its front. It is a Dafny
  class with three methods. `ReadSerial` appends bytes from the port until the
  port runs dry or the buffer is full. `FindEnd` finds the first `'\n'` or
  `'\r'`. `ClearData` drops a consumed prefix and shifts the rest to the front.
  Its object invariant is `0 <= dataLen <= MAX_SERIAL_IN`, and `Contents()` is
  `data[..dataLen]`.
- **The `Message` record and the parser.** `Messages.Parse` is a pure function.
  It follows the source's chain of `strtok`/`strcpy` steps one branch at a time.
  An independent description (`FirstBad`, `Filled`, `Complete`) states which
  record results, and `Parse`'s contract ties the two together. The record
  itself is the class `MessageRecord`, which holds five character arrays of
  sizes 4, 4, 30, 100 and 100. `ClearMessage` zero-fills them. `ParseMessage`
  fills them in place and is proved equal to `Parse`. `strtok` with delimiter
  `","` is the pure function `Tokens`. It skips runs of commas, so tokens are
  the maximal non-empty comma-free runs.
- **The encoder `SEND_SERIAL`** is modelled by two pure functions.
  `SendSerial` writes the text of a record. `SendSerialInt` first formats an
  integer into a 4-byte buffer, which keeps at most three characters.

`RoundTrip` holds the lemmas that relate the two ends. A line the encoder
writes is found whole by the end-of-line scan. Parsing that line gives back the
fields it was built from. The module also proves what the parser gives for
concrete lines.

How C values are represented:

- A `char *` argument is a `seq<char>`. Its text is read through `CStr`, the
  characters before the first NUL, which is what `print`, `strlen` and
  `strncpy` see.
- A NULL pointer is `Option.None`.
- The global `SRC_ID` is a parameter of the encoder.
- The serial port's input is a `seq<char>` that `ReadSerial` consumes from the
  front; the method returns what is left.
- The port's output is the string the encoder returns.

## Model

| member | source | states |
|---|---|---|
| `CText.CLen` | hs_general.h:125 | strlen: the length is the index of the first NUL, and no earlier byte is NUL |
| `CText.CStr` | hs_general.h:144 | the text a buffer holds is a NUL-free prefix that ends at the buffer's first NUL |
| `CText.CStrOfTerminated` | hs_general.h:151 | a buffer holding a text and then a NUL reads back as exactly that text, whatever bytes follow |
| `CText.CleanString` | hs_general.h:123-135 | for a buffer that holds a NUL, every '\n' and '\r' before the first NUL becomes ' '; every other byte, and the string's length, is unchanged; afterwards the text holds no line end |
| `SerialBuffer.FirstTerminator` | hs_general.h:68-86 | -1 exactly when no byte is a line end; otherwise the index of a line end with none before it |
| `SerialBuffer.SerialInput.constructor` | hs_general.h:25-30 | a fresh buffer has capacity MAX_SERIAL_IN and no unread bytes |
| `SerialBuffer.SerialInput.ReadSerial` | hs_general.h:32-39 | appends exactly min(available, free space) bytes from the front of the source, in order; earlier bytes are untouched; it stops only when the source is empty or dataLen == MAX_SERIAL_IN; dataLen never exceeds MAX_SERIAL_IN |
| `SerialBuffer.SerialInput.FindEnd` | hs_general.h:70-86 | returns -1 iff no unread byte is '\n' or '\r', otherwise the smallest such index; it changes nothing |
| `SerialBuffer.SerialInput.ClearData` | hs_general.h:91-102 | for len >= 0, dataLen becomes max(0, dataLen - len) and byte i becomes the old byte len + i |
| `SerialBuffer.DropTwice` | hs_general.h:91-102 | clearing a bytes and then b bytes leaves the same contents as clearing a + b bytes |
| `SerialBuffer.DropCapacity` | hs_general.h:91 | the default count, MAX_SERIAL_IN, empties any buffer |
| `SerialBuffer.LineThenRest` | hs_general.h:68-102 | when the scan finds k, the contents are a terminator-free line, its line end, and then exactly what clearing k + 1 bytes leaves |
| `Messages.RunLength` | hs_general.h:147 | the length of the comma-free run at the front of the text; a comma or the end follows it |
| `Messages.Tokens` | hs_general.h:147-167 | strtok's tokens are non-empty, comma-free and made of the line's characters; there are none exactly when the line holds only commas (which tokens come out is fixed by `RoundTrip.TokensSkipComma` and `RoundTrip.TokensOfField`) |
| `Messages.FirstBad` | hs_general.h:150-168 | the first of the four required tokens that is missing or too long (limits 4, 4, 30, 100); every token before it fits |
| `Messages.Parse` | hs_general.h:138-175 | a NULL line fails and leaves the record as it was; otherwise it succeeds iff all four required tokens are present and fit, and the record is the four tokens plus the fifth when it fits; on failure the record is the tokens before the failing one with the rest zero-filled; every field fits its array |
| `Messages.StrCpy` | hs_general.h:151 | copies the text and a NUL to the front of the array; later bytes stay; the array then reads back as the text |
| `Messages.MessageRecord.constructor` | hs_general.h:104-112 | five distinct arrays of sizes 4, 4, 30, 100, 100, all empty |
| `Messages.MessageRecord.ClearMessage` | hs_general.h:114-121 | every byte of every field becomes NUL, so every field reads as empty |
| `Messages.MessageRecord.ParseMessage` | hs_general.h:138-175 | the returned flag and the record's new text are exactly what Parse gives for the line and the record's old text |
| `Encoder.Digits` | hs_general.h:44 | the decimal digits of a natural number: at least one, all '0'..'9', no leading zero for a positive number; the count is 1 below 10, at most 2 below 100 and at most 3 below 1000 |
| `Encoder.DecimalText` | hs_general.h:64 | "%d" text: never empty; a '-' comes first exactly when the value is negative and nowhere else, every other character is a digit, a non-zero value has no leading zero, and 0 is written "0"; it has fewer than 4 characters iff the value is between -99 and 999 |
| `Encoder.DigitsValueOfDigits` | hs_general.h:44 | reading the digits back gives the number that was printed |
| `Encoder.DecimalTextValue` | hs_general.h:64 | reading the sign and the digits back gives the integer that was formatted |
| `Encoder.Truncated` | hs_general.h:64 | snprintf into a buffer of n bytes keeps the whole text when it fits and exactly its first n - 1 characters otherwise |
| `Encoder.BodyText` | hs_general.h:41-58 | the body is `dec(SRC_ID)`, type, name and state separated by commas, with `,msg` after the state when msg is not NULL |
| `Encoder.SendSerial` | hs_general.h:41-58 | the text overload's line always ends with the line end println writes; `Encoder.SendSerialLayout` gives its whole text for every argument |
| `Encoder.SendSerialLayout` | hs_general.h:41-58 | for every argument, the text overload writes the comma-joined fields built from the texts its string arguments hold (the fifth only when msg is not NULL), then the line end |
| `Encoder.SendSerialInt` | hs_general.h:60-66 | the integer overload sends a prefix of at most 3 characters of the value's decimal text as the fifth field, and the whole text for values -99..999 |
| `RoundTrip.TokensOfField` | hs_general.h:147-167 | strtok takes a comma-free text as one token and resumes after the comma that follows it |
| `RoundTrip.TokensSkipComma` | hs_general.h:147 | strtok skips a leading delimiter: a comma in front of a text adds no token; with `Tokens` of the empty text and `TokensOfField` this fixes the tokens of every line |
| `RoundTrip.TokensOfJoin` | hs_general.h:147-167 | strtok recovers every field of a comma-joined list of non-empty comma-free fields |
| `RoundTrip.JoinIsClean` | hs_general.h:41-58 | joining fields free of line ends and NUL gives a text free of them |
| `RoundTrip.BodyIsClean` | hs_general.h:41-58 | a body built from fields that fit holds no line end and no NUL |
| `RoundTrip.SendSerialShape` | hs_general.h:41-58 | with fields that fit, the encoder writes `dec(SRC_ID),type,name,state` and `,msg` when msg is not NULL, then the line end; the body holds no line end and no NUL |
| `RoundTrip.TokensOfBody` | hs_general.h:41-58 | the tokens of an encoded body are the source id's text, type, name, state and, if sent, msg |
| `RoundTrip.ScanOfTerminatedLine` | hs_general.h:70-102 | on a text free of line ends followed by LINE_END and more bytes, the scan stops at the LINE_END, and clearing through its first byte leaves the rest of the line end and the bytes that followed |
| `RoundTrip.FindEndOfSentLine` | hs_general.h:70-86 | the receiver's scan of an encoded line, and whatever arrived after it, stops right after the body; the bytes before it are the body, and clearing one byte past it leaves the rest of the line end and the bytes that followed |
| `RoundTrip.ParseOfSentLine` | hs_general.h:138-175 | encode then parse: with fitting fields and a body under 100 characters, parsing succeeds and gives back the fields; extra is msg when sent and empty otherwise |
| `RoundTrip.ParseOfSentInt` | hs_general.h:60-66 | the integer overload round-trips values -99..999 as their decimal text in the extra field |
| `RoundTrip.ParseAccepts` | hs_general.h:150-168 | four well-sized tokens are accepted, and the record's four required fields are those tokens |
| `RoundTrip.ParseOfGoodTokens` | hs_general.h:150-175 | a line whose tokens all fit is accepted, and the record is the four required tokens plus the fifth when it fits |
| `RoundTrip.ParseOfBadTokens` | hs_general.h:150-168 | a line whose k-th required token is missing or too long is rejected; the record keeps the k tokens before it, and every later field is empty |
| `RoundTrip.ParseOfLongType` | hs_general.h:150-158 | a type token of four or more characters is rejected, and only the source stays set |
| `RoundTrip.ParseOfCommas` | hs_general.h:147-150 | an empty line or one of only commas fails with a zero-filled record |
| `RoundTrip.JoinOfFour` | hs_general.h:41-58 | four fields are written with a comma between each two |
| `RoundTrip.TokensOfDoorLine` | hs_general.h:147-167 | "5,2,Door1,trp" splits into the tokens 5, 2, Door1 and trp |
| `RoundTrip.ParseExampleDoor` | hs_general.h:138-175 | a line whose tokens are 5, 2, Door1 and trp, such as "5,2,Door1,trp", gives source 5, type 2, name Door1, info trp and no extra |
| `RoundTrip.ParseDoorLine` | hs_general.h:138-175 | the line "5,2,Door1,trp" itself parses to source 5, type 2, name Door1, info trp and no extra |
| `RoundTrip.TokensOfLeadingComma` | hs_general.h:147 | ",2,Door1,trp" gives three tokens, because the leading empty field is skipped |
| `RoundTrip.ParseExampleLeadingComma` | hs_general.h:150-158 | a line whose tokens are 2, Door1 and trp, such as ",2,Door1,trp", fails: "2" becomes the source, "Door1" is too long for the type, and only the source stays set |
| `RoundTrip.ParseLeadingCommaLine` | hs_general.h:138-158 | the line ",2,Door1,trp" itself fails with only the source, 2, set |
| `RoundTrip.TokensOfThreeFields` | hs_general.h:147-167 | "5,2,Door1" splits into the three tokens 5, 2 and Door1 |
| `RoundTrip.ParseExampleThreeTokens` | hs_general.h:160-168 | a line whose tokens are 5, 2 and Door1, such as "5,2,Door1", fails with source, type and name set and info and extra empty |
| `RoundTrip.ParseThreeFieldLine` | hs_general.h:138-168 | the line "5,2,Door1" itself fails with source 5, type 2 and name Door1 set and info and extra empty |
| `RoundTrip.SendSerialZoneLine` | hs_general.h:41-58 | the text overload with source 5, type 1, Zone1, trp and msg 7 writes "5,1,Zone1,trp,7" and the line end |
| `RoundTrip.SendSerialIntExample` | hs_general.h:60-66 | source 5, type 1, Zone1, trp and the value 7 give "5,1,Zone1,trp,7" and the line end |
| `RoundTrip.TruncatedExample` | hs_general.h:63-64 | formatting 1234 into four bytes keeps "123" |
| `RoundTrip.SendSerialIntTruncates` | hs_general.h:63-65 | a value below -99 or above 999 has four or more characters, and only its first three are sent |
| `RoundTrip.FieldLimitsAllowOverlongBody` | hs_general.h:4 | fields that each meet their own limit can still make a body longer than the 100-byte buffer |

Notes on the model:

- **Line end.** `LINE_END` is `"\r\n"`, which is what Arduino's `println`
  writes. The round-trip lemmas rely only on its first character being a line
  end; the concrete encoder lemmas spell out both characters.
  Arduino's `Print` library is not part of this model.
- **Body length.** The round trip needs the whole body to be shorter than
  `MAX_SERIAL_IN`. This is not implied by the per-field limits: info and extra
  may each be 99 characters, but the parser's scratch copy and the receive
  buffer hold 100 bytes in all (`FieldLimitsAllowOverlongBody`).
- **Integer argument.** In the integer overload, the integer is the fifth field,
  `msg`. It is not the state.

## Left out

- The `HardwareSerial` calls (`available`, `read`, `print`, `println`) are I/O.
  The input is a sequence that `ReadSerial` consumes, and the output is the
  string the encoder returns.
- The `SRC_ID` global is a parameter. `TYPE_SIZE` is unused in the source and is
  not modelled. The string constants (`TYPE_*`, `STATUS*`, `STATE_*`,
  `USER_INPUT`) carry no logic, because the parser does not check types or
  states.
- `Messages.Parse` and `MessageRecord.ParseMessage` require the line's text to
  be shorter than 100 characters. With a longer line, `strncpy` leaves the
  scratch copy without a NUL and `strtok` reads past it, which is undefined
  behaviour in C.
- `CleanString` requires the buffer to hold a NUL. Without one, `strlen` reads
  past the end of the array, which is undefined behaviour in C.
- `SerialInput.ClearData` requires `len >= 0`. A negative count would read
  before the array's start, which is undefined behaviour in C.
- `strtok`'s hidden static state is replaced by the list of tokens the pure
  `Tokens` computes. `ParseMessage` walks that list in the order the source
  calls `strtok`.
- `CleanString` is modelled on its own. The source calls it nowhere, because
  the call inside `ParseMessage` is commented out.
- A `char` is a Dafny `char`. No signedness or 8-bit width is modelled.
