/** Correlation ids: hexadecimal round trips and the canonical form that reaches logs. */
module RequestIds {
  import opened Options

  type Byte = b: int | 0 <= b < 256

  predicate LowerHex(c: char) { '0' <= c <= '9' || 'a' <= c <= 'f' }

  predicate HexDigit(c: char) { LowerHex(c) || 'A' <= c <= 'F' }

  /** The CHECK of the request id column, apart from the empty default. */
  predicate Canonical(id: string) {
    |id| == 32 && forall i :: 0 <= i < |id| ==> LowerHex(id[i])
  }

  function DigitValue(c: char): (v: int)
    requires HexDigit(c)
    ensures 0 <= v < 16
  {
    if '0' <= c <= '9' then c as int - '0' as int
    else if 'a' <= c <= 'f' then c as int - 'a' as int + 10
    else c as int - 'A' as int + 10
  }

  function Digit(v: int): (c: char)
    requires 0 <= v < 16
    ensures LowerHex(c) && DigitValue(c) == v
  {
    "0123456789abcdef"[v]
  }

  function Join(hi: int, lo: int): (b: Byte)
    requires 0 <= hi < 16 && 0 <= lo < 16
    ensures b / 16 == hi && b % 16 == lo
  {
    16 * hi + lo
  }

  function High(b: Byte): (d: char)
    ensures LowerHex(d) && DigitValue(d) == b / 16
  {
    Digit(b / 16)
  }

  function Low(b: Byte): (d: char)
    ensures LowerHex(d) && DigitValue(d) == b % 16
  {
    Digit(b % 16)
  }

  lemma JoinSplits(b: Byte)
    ensures Join(DigitValue(High(b)), DigitValue(Low(b))) == b
  {
  }

  lemma LowerPair(hi: char, lo: char)
    requires HexDigit(hi) && HexDigit(lo)
    ensures var b := Join(DigitValue(hi), DigitValue(lo)); High(b) == LowerChar(hi) && Low(b) == LowerChar(lo)
  {
    LowerDigit(hi);
    LowerDigit(lo);
  }

  function LowerChar(c: char): char {
    if 'A' <= c <= 'Z' then c - 'A' + 'a' else c
  }

  /** ASCII lower-casing, the independent reference for decode-then-encode. */
  function Lower(s: string): (r: string)
    ensures |r| == |s|
    ensures forall i :: 0 <= i < |s| ==> r[i] == LowerChar(s[i])
  {
    seq(|s|, i requires 0 <= i < |s| => LowerChar(s[i]))
  }

  /** Section 8 of RFC 4648, two digits per byte; None where DecodeString fails. */
  function DecodeHex(s: string): (r: Option<seq<Byte>>)
  {
    if s == [] then Some([])
    else if |s| == 1 || !HexDigit(s[0]) || !HexDigit(s[1]) then None
    else
      match DecodeHex(s[2..])
      case None => None
      case Some(rest) => Some([Join(DigitValue(s[0]), DigitValue(s[1]))] + rest)
  }

  function EncodeHex(bytes: seq<Byte>): (r: string)
  {
    if bytes == [] then []
    else [High(bytes[0]), Low(bytes[0])] + EncodeHex(bytes[1..])
  }

  lemma {:induction false} DecodeUndoesEncode(bytes: seq<Byte>)
    ensures DecodeHex(EncodeHex(bytes)) == Some(bytes)
  {
    if bytes != [] {
      DecodeUndoesEncode(bytes[1..]);
      var text := EncodeHex(bytes);
      assert text[2..] == EncodeHex(bytes[1..]);
      JoinSplits(bytes[0]);
      assert DecodeHex(text).value == [bytes[0]] + bytes[1..] == bytes;
    }
  }

  lemma {:induction false} EncodeIsLowerHex(bytes: seq<Byte>)
    ensures |EncodeHex(bytes)| == 2 * |bytes|
    ensures forall i :: 0 <= i < |EncodeHex(bytes)| ==> LowerHex(EncodeHex(bytes)[i])
  {
    if bytes != [] {
      EncodeIsLowerHex(bytes[1..]);
    }
  }

  /** Two digits a byte, high one first. */
  lemma {:induction false} EncodeAt(bytes: seq<Byte>, i: nat)
    requires i < |bytes|
    ensures |EncodeHex(bytes)| == 2 * |bytes|
    ensures EncodeHex(bytes)[2 * i] == "0123456789abcdef"[bytes[i] / 16]
    ensures EncodeHex(bytes)[2 * i + 1] == "0123456789abcdef"[bytes[i] % 16]
  {
    EncodeIsLowerHex(bytes);
    if i > 0 {
      EncodeAt(bytes[1..], i - 1);
    }
  }

  lemma LowerDigit(c: char)
    requires HexDigit(c)
    ensures Digit(DigitValue(c)) == LowerChar(c)
  {
    var v := DigitValue(c);
    assert "0123456789abcdef"[v] == LowerChar(c);
  }

  /** Decoding succeeds exactly on even-length digit strings; re-encoding then lower-cases. */
  lemma {:induction false} DecodeThenEncode(s: string)
    ensures DecodeHex(s).Some? <==> |s| % 2 == 0 && forall i :: 0 <= i < |s| ==> HexDigit(s[i])
    ensures DecodeHex(s).Some? ==> EncodeHex(DecodeHex(s).value) == Lower(s)
  {
    if |s| >= 2 {
      var tail := s[2..];
      DecodeThenEncode(tail);
      AllDigitsSplit(s);
      if DecodeHex(s).Some? {
        LowerPair(s[0], s[1]);
        var bytes := DecodeHex(s).value;
        assert bytes[1..] == DecodeHex(tail).value;
        assert EncodeHex(bytes) == [LowerChar(s[0]), LowerChar(s[1])] + Lower(tail);
      }
    }
  }

  lemma AllDigitsSplit(s: string)
    requires |s| >= 2
    ensures (forall i :: 0 <= i < |s| ==> HexDigit(s[i])) <==>
            HexDigit(s[0]) && HexDigit(s[1]) && forall i :: 0 <= i < |s[2..]| ==> HexDigit(s[2..][i])
  {
    assert s == [s[0], s[1]] + s[2..];
  }

  function ForLog(id: string): string {
    if |id| != 32 then ""
    else
      match DecodeHex(id)
      case None => ""
      case Some(raw) => EncodeHex(raw)
  }

  /** `New` encodes 16 random bytes; the bytes are the parameter. */
  function New(raw: seq<Byte>): string
    requires |raw| == 16
  {
    EncodeHex(raw)
  }

  datatype Context = Context(requestId: Option<string>)

  function WithContext(id: string): Context { Context(Some(ForLog(id))) }

  function FromContext(c: Context): string {
    if c.requestId.Some? then c.requestId.value else ""
  }

  /** What reaches a log sink: lower-casing on every 32-digit hexadecimal string, else nothing. */
  lemma ForLogCanonical(id: string)
    ensures ForLog(id) == "" || Canonical(ForLog(id))
    ensures |id| == 32 && (forall i :: 0 <= i < 32 ==> HexDigit(id[i])) ==> ForLog(id) == Lower(id)
    ensures !(|id| == 32 && forall i :: 0 <= i < |id| ==> HexDigit(id[i])) ==> ForLog(id) == ""
    ensures ForLog(id) != "" ==> |ForLog(id)| == |id| == 32 && forall i :: 0 <= i < 32 ==>
              ForLog(id)[i] == if 'A' <= id[i] <= 'F' then id[i] - 'A' + 'a' else id[i]
    ensures Canonical(id) ==> ForLog(id) == id
    ensures ForLog(ForLog(id)) == ForLog(id)
  {
    ForLogValue(id);
    ForLogValue(ForLog(id));
  }

  predicate AllHex(id: string) { |id| == 32 && forall i :: 0 <= i < |id| ==> HexDigit(id[i]) }

  lemma ForLogLowers(id: string)
    ensures ForLog(id) == if AllHex(id) then Lower(id) else ""
  {
    DecodeThenEncode(id);
  }

  lemma LowerCanonical(id: string)
    ensures AllHex(id) ==> Canonical(Lower(id))
    ensures Canonical(id) ==> AllHex(id) && Lower(id) == id
  {
  }

  lemma ForLogValue(id: string)
    ensures ForLog(id) == if AllHex(id) then Lower(id) else ""
    ensures ForLog(id) == "" || Canonical(ForLog(id))
    ensures Canonical(id) ==> ForLog(id) == id
  {
    ForLogLowers(id);
    LowerCanonical(id);
  }

  /** The id the service stores: the context's when present, otherwise a new one. */
  function StoredRequestId(c: Context, raw: seq<Byte>): string
    requires |raw| == 16
  {
    if FromContext(c) == "" then New(raw) else FromContext(c)
  }

  /** Which id is stored: the one attached to the context, in lower case; without one, the new id,
      which decodes to the random bytes. */
  ghost predicate StoresId(c: Context, raw: seq<Byte>, id: string) {
    && (forall h :: c == WithContext(h) && Canonical(h) ==> id == h)
    && (forall h :: c == WithContext(h) && |h| == 32 && (forall i :: 0 <= i < |h| ==> HexDigit(h[i])) ==> id == Lower(h))
    && (c == Context(None) ==> DecodeHex(id) == Some(raw))
    && (forall h :: c == WithContext(h) && ForLog(h) == "" ==> DecodeHex(id) == Some(raw))
  }

  lemma StoredIdIsAttached(c: Context, raw: seq<Byte>)
    requires |raw| == 16
    ensures StoresId(c, raw, StoredRequestId(c, raw))
  {
    DecodeUndoesEncode(raw);
    forall h | c == WithContext(h) ensures FromContext(c) == ForLog(h) {
    }
    forall h | c == WithContext(h) && Canonical(h) ensures StoredRequestId(c, raw) == h {
      ForLogCanonical(h);
    }
    forall h | c == WithContext(h) && |h| == 32 && (forall i :: 0 <= i < |h| ==> HexDigit(h[i]))
      ensures StoredRequestId(c, raw) == Lower(h)
    {
      ForLogCanonical(h);
      assert |Lower(h)| == 32;
    }
  }

  /** Contexts that exist: the key is private, so only WithContext sets it. */
  ghost predicate Built(c: Context) {
    c.requestId.None? || exists header :: c == WithContext(header)
  }

  /** Every id stored on behalf of a request is canonical and survives to the log unchanged. */
  lemma StoredIdsReachTheLog(c: Context, raw: seq<Byte>)
    requires |raw| == 16 && Built(c)
    ensures var id := StoredRequestId(c, raw); Canonical(id) && ForLog(id) == id
  {
    EncodeIsLowerHex(raw);
    ForLogCanonical(New(raw));
    if c.requestId.Some? {
      var header :| c == WithContext(header);
      ForLogCanonical(header);
    }
  }
}
