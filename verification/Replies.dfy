/** The OK, ERR and PONG messages a session sends about a request. */
module Replies {
  import opened Bytes
  import opened Codec
  import opened Utf8

  const SUBSCRIBED_TO: Str := Ascii("subscribed to ")
  const UNSUBSCRIBED_FROM: Str := Ascii("unsubscribed from ")
  const HANDLE_ERROR: Str := Ascii("handle error: ")
  const UNKNOWN_COMMAND: Str := Ascii("unknown command: ")

  /** SendOK: the text travels in the subject field, cut to what fits. */
  function OkMessage(text: Str): (m: Message)
    ensures InLimits(m)
  {
    Message(CMD_OK, Truncated(text, MAX_SUBJECT_LEN), [])
  }

  /** SendError. */
  function ErrMessage(text: Str): (m: Message)
    ensures InLimits(m)
  {
    Message(CMD_ERR, Truncated(text, MAX_SUBJECT_LEN), [])
  }

  const PONG: Message := Message(CMD_PONG, [], [])

  function SubscribedReply(subject: Str): (m: Message)
    ensures InLimits(m)
  {
    OkMessage(SUBSCRIBED_TO + subject)
  }

  function UnsubscribedReply(subject: Str): (m: Message)
    ensures InLimits(m)
  {
    OkMessage(UNSUBSCRIBED_FROM + subject)
  }

  /** A byte printed with %d. */
  function Decimal(b: Byte): (s: Str)
  {
    var n: int := b;
    if n < 10 then [48 + n]
    else if n < 100 then [48 + n / 10, 48 + n % 10]
    else [48 + n / 100, 48 + n / 10 % 10, 48 + n % 10]
  }

  /** The number a string of decimal digits stands for. */
  function DecimalValue(s: Str): (n: int)
  {
    if s == [] then 0 else 10 * DecimalValue(s[..|s| - 1]) + (s[|s| - 1] as int - 48)
  }

  lemma DecimalIsExact(b: Byte)
    ensures DecimalValue(Decimal(b)) == b as int
    ensures forall i :: 0 <= i < |Decimal(b)| ==> 48 <= Decimal(b)[i] <= 57
    ensures |Decimal(b)| == 1 || Decimal(b)[0] != 48
  {
    var s := Decimal(b);
    assert DecimalValue([s[0]]) == s[0] as int - 48;
    if |s| == 2 {
      assert s[..1] == [s[0]];
    } else if |s| == 3 {
      assert s[..2] == [s[0], s[1]] && s[..2][..1] == [s[0]];
      assert DecimalValue(s[..2]) == 10 * (s[0] as int - 48) + (s[1] as int - 48);
    }
  }

  function UnknownCommandReply(command: Byte): (m: Message)
    ensures InLimits(m)
  {
    ErrMessage(HANDLE_ERROR + UNKNOWN_COMMAND + Decimal(command))
  }

  /** Whatever the text, the frame of an OK or ERR is accepted by both parsers, and valid text arrives
      as valid text that lost at most three of the bytes that fit. */
  lemma RepliesAreAccepted(text: Str, rest: Str)
    ensures forall m :: m == OkMessage(text) || m == ErrMessage(text) ==>
              && ReaderParse(Frame(m) + rest) == (Read(m), rest)
              && BufferParse(Frame(m) + rest) == Parsed(m, rest)
              && (Valid(text) ==>
                   Valid(m.subject) && (|text| > MAX_SUBJECT_LEN ==> |m.subject| >= MAX_SUBJECT_LEN - 3))
  {
    RoundTrip(OkMessage(text), rest);
    RoundTrip(ErrMessage(text), rest);
    if Valid(text) {
      TruncationOfValidText(text, MAX_SUBJECT_LEN);
    }
  }
}
