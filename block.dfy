/**
 * Definite-length arbitrary block data, as section 7.7.6 of IEEE 488.2
 * defines it: `#`, one non-zero digit n, n digits giving the payload length
 * L, then exactly L payload characters. The scripts write
 * `'#%s%s%s' % (str(len(str(len(body)))), str(len(body)), body)`.
 */
module Block {
  import opened Wrappers
  import opened Decimal

  /** Payloads this long or longer need a ten-digit length, which one header digit cannot count. */
  const MAX_PAYLOAD: nat := 1000000000

  /** The header and payload the scripts send after `data:seq `. */
  function Frame(body: string): string
  {
    "#" + NatToString(|NatToString(|body|)|) + NatToString(|body|) + body
  }

  /** How an instrument reads a definite-length block that ends the message. */
  function DecodeBlock(b: string): Option<string>
  {
    if |b| < 2 || b[0] != '#' || !('1' <= b[1] <= '9') then None
    else
      var n := DigitValue(b[1]);
      if |b| < 2 + n || !AllDigits(b[2..2 + n]) then None
      else if ParseDigits(b[2..2 + n]) != |b| - (2 + n) then None
      else Some(b[2 + n..])
  }

  /** Whatever a block decodes to is shorter than MAX_PAYLOAD. */
  lemma DecodedLength(b: string)
    requires DecodeBlock(b).Some?
    ensures |DecodeBlock(b).value| < MAX_PAYLOAD
  {
    var n := DigitValue(b[1]);
    Pow10Monotone(n, 9);
    assert Pow10(9) == MAX_PAYLOAD;
  }

  /**
   * The framing round-trips exactly when the payload length has at most
   * nine digits: the digit after `#` counts the length's digits, those
   * digits give the length, and what follows is the body.
   */
  lemma FrameRoundTrip(body: string)
    ensures DecodeBlock(Frame(body)) == Some(body) <==> |body| < MAX_PAYLOAD
  {
    if |body| < MAX_PAYLOAD {
      var d := NatToString(|body|);
      assert Pow10(9) == MAX_PAYLOAD;
      NatToStringAtMost(|body|, 9);
      ParseNatToString(|body|);
      var b := Frame(body);
      assert NatToString(|d|) == [DigitChar(|d|)];
      assert b == "#" + [DigitChar(|d|)] + d + body;
      assert b[2..2 + |d|] == d;
      assert b[2 + |d|..] == body;
    } else if DecodeBlock(Frame(body)).Some? {
      DecodedLength(Frame(body));
    }
  }

  /** A 23-character body is framed as `#223` followed by the body. */
  lemma TwentyThreeCharacters(body: string)
    requires |body| == 23
    ensures Frame(body) == "#223" + body
  {
    assert NatToString(23) == "23";
  }
}
