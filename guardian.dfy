/** The Guardian AI client: the rule that turns a transcription message into the
    player's "name" and "voice" callbacks, and the conversion of a microphone
    buffer into the 16-bit PCM byte string that is streamed to the speech service. */
module Guardian {
  import opened Types

  // ---------------------------------------------------------------------------
  // Transcript matching

  /** Lower-casing of one character; only the ASCII capitals A-Z are mapped. */
  function LowerChar(c: char): char
  {
    if 'A' <= c <= 'Z' then (c as int + 32) as char else c
  }

  /** `toLowerCase()`, character by character. */
  function Lower(s: string): (r: string)
    ensures |r| == |s|
    ensures forall i :: 0 <= i < |s| ==> r[i] == LowerChar(s[i])
  {
    if s == [] then [] else [LowerChar(s[0])] + Lower(s[1..])
  }

  /** Lower-casing twice is lower-casing once, and leaves no ASCII capital behind. */
  lemma LowerIdempotent(s: string)
    ensures Lower(Lower(s)) == Lower(s)
    ensures forall i :: 0 <= i < |s| ==> !('A' <= Lower(s)[i] <= 'Z')
  {
    assert forall i :: 0 <= i < |s| ==> Lower(Lower(s))[i] == Lower(s)[i];
  }

  /** `sub` occurs in `s` starting at index i. */
  ghost predicate OccursAt(sub: string, s: string, i: int)
  {
    0 <= i <= |s| - |sub| && s[i..i + |sub|] == sub
  }

  /** `sub` occurs in `s` at some position. */
  ghost predicate IsSubstring(sub: string, s: string)
  {
    exists i :: OccursAt(sub, s, i)
  }

  /** When `sub` is not a prefix of `s`, it occurs in `s` exactly when it occurs in `s[1..]`. */
  lemma SubstringOfTail(sub: string, s: string)
    requires |sub| <= |s| && !(sub <= s)
    ensures IsSubstring(sub, s) <==> IsSubstring(sub, s[1..])
  {
    if IsSubstring(sub, s) {
      var i :| OccursAt(sub, s, i);
      assert i != 0;
      assert s[1..][i - 1..i - 1 + |sub|] == sub;
      assert OccursAt(sub, s[1..], i - 1);
    }
    if IsSubstring(sub, s[1..]) {
      var j :| OccursAt(sub, s[1..], j);
      assert s[j + 1..j + 1 + |sub|] == sub;
      assert OccursAt(sub, s, j + 1);
    }
  }

  /** `s.includes(sub)`: a left-to-right search for `sub` in `s`. */
  function Includes(s: string, sub: string): (r: bool)
    ensures r <==> IsSubstring(sub, s)
    decreases |s|
  {
    if |sub| > |s| then false
    else if sub <= s then (assert OccursAt(sub, s, 0); true)
    else SubstringOfTail(sub, s); Includes(s[1..], sub)
  }

  /** The input transcription a live-session message may carry; its `text` may be absent. */
  datatype Transcription = Transcription(text: Option<string>)

  /** A server message, reduced to its optional `serverContent.inputTranscription`. */
  datatype ServerMessage = ServerMessage(inputTranscription: Option<Transcription>)

  /** A call the client makes into the player: `onName()` or `onVoice(text)`. */
  datatype Callback = NameDetected | VoiceDetected(text: string)

  /** The transcript text of a message, when it carries a transcription that has text. */
  function HeardText(msg: ServerMessage): Option<string>
  {
    match msg.inputTranscription
    case None => None
    case Some(t) => t.text
  }

  /** The callbacks `onmessage` makes, in order, for one message while monitoring `userName`.
      A transcription without text makes `text.toLowerCase()` throw before either
      callback runs, so such a message, like one without a transcription, calls nothing. */
  function Dispatch(msg: ServerMessage, userName: string): (calls: seq<Callback>)
    ensures HeardText(msg).None? ==> calls == []
    ensures HeardText(msg).Some? ==>
      1 <= |calls| <= 2 && calls[|calls| - 1] == VoiceDetected(Lower(HeardText(msg).value))
    ensures NameDetected in calls <==>
      HeardText(msg).Some? && IsSubstring(Lower(userName), Lower(HeardText(msg).value))
    ensures |calls| == 2 ==> calls[0] == NameDetected
  {
    match msg.inputTranscription
    case None => []
    case Some(t) =>
      match t.text
      case None => []
      case Some(raw) =>
        var text := Lower(raw);
        (if Includes(text, Lower(userName)) then [NameDetected] else []) + [VoiceDetected(text)]
  }

  /** An empty user name occurs in every transcript, so every transcript raises the name alert. */
  lemma EmptyNameAlwaysMatches(msg: ServerMessage)
    requires HeardText(msg).Some?
    ensures Dispatch(msg, "") == [NameDetected, VoiceDetected(Lower(HeardText(msg).value))]
  {
  }

  /** Matching ignores the case of the user name as typed in the settings. */
  lemma DispatchIgnoresNameCase(msg: ServerMessage, userName: string)
    ensures Dispatch(msg, Lower(userName)) == Dispatch(msg, userName)
  {
    LowerIdempotent(userName);
  }

  // ---------------------------------------------------------------------------
  // Microphone samples to 16-bit PCM

  newtype int16 = x: int | -0x8000 <= x < 0x8000
  newtype byte = x: int | 0 <= x < 0x100

  /** Rounding toward zero, as ECMAScript's ToIntegerOrInfinity does for finite numbers. */
  function Truncate(v: real): (r: int)
    ensures v >= 0.0 ==> r as real <= v < r as real + 1.0
    ensures v < 0.0 ==> r as real - 1.0 < v <= r as real
  {
    if v >= 0.0 then v.Floor else -((-v).Floor)
  }

  /** Storing a finite number into an Int16Array: truncate, then wrap modulo 2^16 (ToInt16). */
  function ToInt16(v: real): (r: int16)
    ensures (r as int - Truncate(v)) % 0x1_0000 == 0
  {
    var m := Truncate(v) % 0x1_0000;
    (if m >= 0x8000 then m - 0x1_0000 else m) as int16
  }

  /** ToInt16 does not wrap a value that already lies in the 16-bit range. */
  lemma ToInt16InRange(v: real)
    requires -32768.0 <= v < 32768.0
    ensures ToInt16(v) as int == Truncate(v)
  {
  }

  /** `Math.max(-1, Math.min(1, x))`. */
  function Clamp(x: real): (r: real)
    ensures -1.0 <= r <= 1.0
    ensures -1.0 <= x <= 1.0 ==> r == x
    ensures x > 1.0 ==> r == 1.0
    ensures x < -1.0 ==> r == -1.0
  {
    if x > 1.0 then 1.0 else if x < -1.0 then -1.0 else x
  }

  /** One sample of `floatTo16BitPCM`: clamp to [-1, 1], scale negatives by 0x8000 and
      the rest by 0x7FFF, store as Int16. Full scale maps to the extremes, the sign is
      kept, and no value wraps around. */
  function SampleToPcm(x: real): (v: int16)
    ensures x >= 1.0 ==> v == 0x7FFF
    ensures x <= -1.0 ==> v == -0x8000
    ensures x >= 0.0 ==> 0 <= v
    ensures x < 0.0 ==> v <= 0
  {
    var s := Clamp(x);
    var scaled := if s < 0.0 then s * 32768.0 else s * 32767.0;
    ToInt16InRange(scaled);
    ToInt16(scaled)
  }

  /** A louder sample never gives a smaller PCM value. */
  lemma SampleToPcmMonotone(x: real, y: real)
    requires x <= y
    ensures SampleToPcm(x) <= SampleToPcm(y)
  {
  }

  /** `floatTo16BitPCM`: a new buffer of the same length, entry i converted from input i alone. */
  method FloatTo16BitPCM(input: array<real>) returns (output: array<int16>)
    ensures fresh(output)
    ensures output.Length == input.Length
    ensures forall i :: 0 <= i < input.Length ==> output[i] == SampleToPcm(input[i])
  {
    output := new int16[input.Length];
    for i := 0 to input.Length
      invariant forall k :: 0 <= k < i ==> output[k] == SampleToPcm(input[k])
    {
      output[i] := SampleToPcm(input[i]);
    }
  }

  // ---------------------------------------------------------------------------
  // PCM bytes to a binary string

  /** The two bytes of one sample, low byte first (two's complement). */
  function SampleBytes(v: int16): seq<byte>
  {
    var u := v as int % 0x1_0000;
    [(u % 0x100) as byte, (u / 0x100) as byte]
  }

  /** `new Uint8Array(pcm.buffer)` on a little-endian platform: each sample's bytes, in sample order. */
  function LittleEndianBytes(pcm: seq<int16>): (bytes: seq<byte>)
    ensures |bytes| == 2 * |pcm|
  {
    if pcm == [] then [] else SampleBytes(pcm[0]) + LittleEndianBytes(pcm[1..])
  }

  /** Reads a sample back from its low and high byte. */
  function SampleFromBytes(lo: byte, hi: byte): int16
  {
    var u := hi as int * 0x100 + lo as int;
    (if u >= 0x8000 then u - 0x1_0000 else u) as int16
  }

  /** Reads an even-length byte sequence back as little-endian samples. */
  function FromLittleEndian(bytes: seq<byte>): seq<int16>
    requires |bytes| % 2 == 0
  {
    if bytes == [] then [] else [SampleFromBytes(bytes[0], bytes[1])] + FromLittleEndian(bytes[2..])
  }

  /** The byte view loses nothing: reading the bytes back gives the samples. */
  lemma {:induction false} LittleEndianRoundTrip(pcm: seq<int16>)
    ensures FromLittleEndian(LittleEndianBytes(pcm)) == pcm
  {
    if pcm != [] {
      var b := LittleEndianBytes(pcm);
      assert b[2..] == LittleEndianBytes(pcm[1..]);
      assert SampleFromBytes(b[0], b[1]) == pcm[0];
      LittleEndianRoundTrip(pcm[1..]);
    }
  }

  /** The loop of `encode`: one character per byte, in byte order, whose code is the
      byte's value. The base64 step that follows (`btoa`) is not part of this model. */
  method EncodeBinary(bytes: array<byte>) returns (binary: string)
    ensures |binary| == bytes.Length
    ensures forall i :: 0 <= i < bytes.Length ==> binary[i] as int == bytes[i] as int
  {
    binary := "";
    for i := 0 to bytes.Length
      invariant |binary| == i
      invariant forall k :: 0 <= k < i ==> binary[k] as int == bytes[k] as int
    {
      binary := binary + [bytes[i] as int as char];
    }
  }

  /** One `onaudioprocess` buffer up to the `btoa` call: the binary string holds two
      characters per input sample, the low and high byte of its PCM value. */
  method EncodeChunk(input: array<real>) returns (binary: string)
    ensures |binary| == 2 * input.Length
    ensures forall k :: 0 <= k < |binary| ==> binary[k] as int < 0x100
    ensures forall i :: 0 <= i < input.Length ==>
      SampleFromBytes(binary[2 * i] as int as byte, binary[2 * i + 1] as int as byte) == SampleToPcm(input[i])
  {
    var pcm := FloatTo16BitPCM(input);
    var bytes := LittleEndianBytes(pcm[..]);
    var view := new byte[|bytes|](i requires 0 <= i < |bytes| => bytes[i]);
    binary := EncodeBinary(view);
    forall i | 0 <= i < input.Length
      ensures SampleFromBytes(binary[2 * i] as int as byte, binary[2 * i + 1] as int as byte) == SampleToPcm(input[i])
    {
      BytesOfSample(pcm[..], i);
    }
  }

  /** Bytes 2i and 2i+1 of the little-endian view are the bytes of sample i. */
  lemma {:induction false} BytesOfSample(pcm: seq<int16>, i: nat)
    requires i < |pcm|
    ensures SampleFromBytes(LittleEndianBytes(pcm)[2 * i], LittleEndianBytes(pcm)[2 * i + 1]) == pcm[i]
  {
    var b := LittleEndianBytes(pcm);
    if i == 0 {
      assert SampleFromBytes(b[0], b[1]) == pcm[0];
    } else {
      BytesOfSample(pcm[1..], i - 1);
      assert b[2..] == LittleEndianBytes(pcm[1..]);
    }
  }
}
