/** The two text helpers of the player screen: the `m:ss` clock label and the
    rule that turns a file name into a song title. */
module Format {
  import opened Types

  predicate IsDigit(c: char) { '0' <= c <= '9' }

  predicate AllDigits(s: string) { forall i :: 0 <= i < |s| ==> IsDigit(s[i]) }

  function DigitChar(d: nat): (c: char)
    requires d < 10
    ensures IsDigit(c) && c as int - '0' as int == d
  {
    ('0' as int + d) as char
  }

  /** Reads a string of decimal digits back as a number; the inverse of Decimal. */
  function DecimalValue(s: string): int
  {
    if s == [] then 0 else 10 * DecimalValue(s[..|s| - 1]) + (s[|s| - 1] as int - '0' as int)
  }

  /** Base-ten rendering of a natural number, as `Number.prototype.toString()` gives it
      for whole numbers below 10^21 (it switches to exponent form from there on). */
  function Decimal(n: nat): (s: string)
    ensures 1 <= |s| && AllDigits(s)
  {
    if n < 10 then [DigitChar(n)] else Decimal(n / 10) + [DigitChar(n % 10)]
  }

  /** Decimal writes digits only, without a leading zero, and reads back as the number. */
  lemma {:induction false} DecimalRoundTrip(n: nat)
    ensures 1 <= |Decimal(n)| && AllDigits(Decimal(n))
    ensures DecimalValue(Decimal(n)) == n
    ensures n < 10 <==> |Decimal(n)| == 1
    ensures 1 < |Decimal(n)| ==> Decimal(n)[0] != '0'
  {
    if n >= 10 {
      DecimalRoundTrip(n / 10);
      var s := Decimal(n);
      assert s[..|s| - 1] == Decimal(n / 10);
    }
  }

  /** `s.padStart(width, fill)` with a one-character fill: fill characters are put
      in front until the string is `width` long; a longer string is left alone. */
  function PadStart(s: string, width: nat, fill: char): (r: string)
    ensures |r| == if |s| < width then width else |s|
    ensures r[|r| - |s|..] == s
    ensures forall i :: 0 <= i < |r| - |s| ==> r[i] == fill
  {
    if |s| >= width then s else seq(width - |s|, _ => fill) + s
  }

  /** A seconds count below 100 padded to two places is two digits reading back as the count. */
  lemma TwoDigitField(n: nat)
    requires n < 100
    ensures |PadStart(Decimal(n), 2, '0')| == 2
    ensures AllDigits(PadStart(Decimal(n), 2, '0'))
    ensures DecimalValue(PadStart(Decimal(n), 2, '0')) == n
  {
    DecimalRoundTrip(n);
    var d := Decimal(n);
    var p := PadStart(d, 2, '0');
    if n < 10 {
      assert d == [DigitChar(n)];
      assert p == ['0', DigitChar(n)];
      assert p[..1] == ['0'];
      assert DecimalValue(['0']) == 10 * DecimalValue([]) + 0;
    } else {
      assert |Decimal(n / 10)| == 1;
      assert p == d;
    }
  }

  /** `formatTime` on a whole, non-negative number of seconds: the minutes in decimal,
      a colon, then the seconds padded to two digits, so the colon is always third from
      the end. What the two fields read back as is FormatTimeReadsBack. */
  function FormatTime(time: nat): (r: string)
    ensures |r| >= 4 && r[|r| - 3] == ':'
  {
    var mins, secs := time / 60, time % 60;
    TwoDigitField(secs);
    var m, s := Decimal(mins), PadStart(Decimal(secs), 2, '0');
    ClockLayout(m, s);
    m + ":" + s
  }

  /** Minutes, a colon and a two-character field can be split apart again at the colon. */
  lemma ClockLayout(m: string, s: string)
    requires 1 <= |m| && |s| == 2
    ensures var r := m + ":" + s;
      |r| >= 4 && r[|r| - 3] == ':' && r[..|r| - 3] == m && r[|r| - 2..] == s
  {
    var r := m + ":" + s;
    assert r[..|r| - 3] == m;
    assert r[|r| - 2..] == s;
  }

  /** The clock label names the time: digits, a colon and exactly two digits, whose
      values read back give minutes * 60 + seconds == time with seconds < 60, and the
      minutes carry no leading zero. */
  lemma FormatTimeReadsBack(time: nat)
    ensures var r := FormatTime(time);
      && |r| >= 4 && r[|r| - 3] == ':'
      && AllDigits(r[..|r| - 3]) && AllDigits(r[|r| - 2..])
      && 60 * DecimalValue(r[..|r| - 3]) + DecimalValue(r[|r| - 2..]) == time
      && 0 <= DecimalValue(r[|r| - 2..]) < 60
      && (|r| > 4 ==> r[0] != '0')
  {
    var mins, secs := time / 60, time % 60;
    DecimalRoundTrip(mins);
    TwoDigitField(secs);
    var m, s := Decimal(mins), PadStart(Decimal(secs), 2, '0');
    assert FormatTime(time) == m + ":" + s;
    ClockLayout(m, s);
  }

  /** The pattern /\.[^/.]+$/ matches `name` from index p: a dot, then one or more
      characters running to the end of the name, none of them '/' or '.'. */
  ghost predicate ExtensionAt(name: string, p: int)
  {
    0 <= p < |name| - 1 && name[p] == '.' &&
    forall k :: p < k < |name| ==> name[k] != '/' && name[k] != '.'
  }

  /** Scans `name[..end]` from the right for the dot that starts the extension;
      every character at or after `end` is already known to be neither '/' nor '.'. */
  function ExtensionStart(name: string, end: nat): (r: Option<nat>)
    requires end <= |name|
    requires forall k :: end <= k < |name| ==> name[k] != '/' && name[k] != '.'
    ensures r.Some? ==> ExtensionAt(name, r.value)
    ensures r.None? ==> forall p :: !ExtensionAt(name, p)
  {
    if end == 0 then None
    else if name[end - 1] == '.' then (if end < |name| then Some(end - 1) else None)
    else if name[end - 1] == '/' then None
    else ExtensionStart(name, end - 1)
  }

  /** The title of a local file: its name with `.replace(/\.[^/.]+$/, "")` applied.
      Only a final, non-empty extension is removed; a name without a match is kept whole. */
  function StripExtension(name: string): (title: string)
    ensures forall p :: ExtensionAt(name, p) ==> title == name[..p]
    ensures (forall p :: !ExtensionAt(name, p)) ==> title == name
  {
    match ExtensionStart(name, |name|)
    case None => name
    case Some(p) => name[..p]
  }

  /** Only the last extension goes; a trailing dot, a dot before a '/', or no dot at all keeps the name. */
  lemma StripExtensionExamples()
    ensures StripExtension("a.b.mp3") == "a.b"
    ensures StripExtension(".mp3") == ""
    ensures StripExtension("notes") == "notes"
    ensures StripExtension("demo.") == "demo."
    ensures StripExtension("v1.0/take") == "v1.0/take"
  {
    assert ExtensionAt("a.b.mp3", 3);
    assert ExtensionAt(".mp3", 0);
    var path := "v1.0/take";
    forall p ensures !ExtensionAt(path, p) {
      assert path[4] == '/';
    }
  }
}
