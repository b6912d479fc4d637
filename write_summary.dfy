/** The `write_summary` activity: it uploads the summary to the `output`
    container under `"{blob}-{YYYYMMDDHHMMSS}.txt"`, stamped with the current
    UTC time to the second, and returns that name. The clock is not modelled:
    the time is a parameter. */
module WriteSummary {
  import opened Wrappers

  const OutputContainer: string := "output"
  const Extension: string := ".txt"

  /** A UTC time to the second, as `datetime.utcnow()` provides it. */
  datatype Timestamp = Timestamp(year: nat, month: nat, day: nat, hour: nat, minute: nat, second: nat)

  /** The ranges a `datetime` guarantees for its fields. */
  predicate ValidTimestamp(ts: Timestamp)
  {
    && 1 <= ts.year <= 9999
    && 1 <= ts.month <= 12
    && 1 <= ts.day <= 31
    && ts.hour < 24
    && ts.minute < 60
    && ts.second < 60
  }

  function Pow10(n: nat): nat
  {
    if n == 0 then 1 else 10 * Pow10(n - 1)
  }

  predicate IsDigit(c: char)
  {
    '0' <= c <= '9'
  }

  predicate AllDigits(s: string)
  {
    forall i :: 0 <= i < |s| ==> IsDigit(s[i])
  }

  function DigitChar(d: nat): char
    requires d < 10
  {
    (48 + d) as char
  }

  function DigitValue(c: char): nat
  {
    if IsDigit(c) then (c as int) - 48 else 0
  }

  /** The last `width` decimal digits of `n`, zero-padded (`%04d`, `%02d`). */
  function Pad(n: nat, width: nat): (s: string)
    ensures |s| == width
    ensures AllDigits(s)
  {
    if width == 0 then [] else Pad(n / 10, width - 1) + [DigitChar(n % 10)]
  }

  /** The number a string of decimal digits denotes. */
  function Value(s: string): nat
  {
    if s == [] then 0 else 10 * Value(s[..|s| - 1]) + DigitValue(s[|s| - 1])
  }

  /** A number below 10^width is read back from its padded digits. */
  lemma {:induction false} PadValue(n: nat, width: nat)
    requires n < Pow10(width)
    ensures Value(Pad(n, width)) == n
    decreases width
  {
    if width > 0 {
      var s := Pad(n, width);
      assert s[..|s| - 1] == Pad(n / 10, width - 1);
      assert n / 10 < Pow10(width - 1);
      PadValue(n / 10, width - 1);
    }
  }

  /** `strftime("%Y%m%d%H%M%S")`. */
  function Stamp(ts: Timestamp): (s: string)
    ensures |s| == 14
    ensures AllDigits(s)
  {
    Pad(ts.year, 4) + Pad(ts.month, 2) + Pad(ts.day, 2)
    + Pad(ts.hour, 2) + Pad(ts.minute, 2) + Pad(ts.second, 2)
  }

  /** Reads the six fields back from fourteen digits. */
  function ParseStamp(s: string): Timestamp
    requires |s| == 14
  {
    Timestamp(Value(s[0..4]), Value(s[4..6]), Value(s[6..8]),
              Value(s[8..10]), Value(s[10..12]), Value(s[12..14]))
  }

  /** `x` sits in `pre + x + post` right after `pre`. */
  lemma PieceAt(pre: string, x: string, post: string)
    ensures |pre| + |x| <= |pre + x + post|
    ensures (pre + x + post)[|pre|..|pre| + |x|] == x
  {
  }

  /** Where each of six pieces of widths 4, 2, 2, 2, 2, 2 sits in their
      concatenation. */
  lemma SixPieces(y: string, mo: string, d: string, h: string, mi: string, se: string)
    requires |y| == 4 && |mo| == 2 && |d| == 2 && |h| == 2 && |mi| == 2 && |se| == 2
    ensures var s := y + mo + d + h + mi + se;
            && s[0..4] == y && s[4..6] == mo && s[6..8] == d
            && s[8..10] == h && s[10..12] == mi && s[12..14] == se
  {
    var s := y + mo + d + h + mi + se;
    assert s[0..4] == y by {
      assert s == [] + y + (mo + d + h + mi + se);
      PieceAt([], y, mo + d + h + mi + se);
    }
    assert s[4..6] == mo by {
      assert s == y + mo + (d + h + mi + se);
      PieceAt(y, mo, d + h + mi + se);
    }
    assert s[6..8] == d by {
      assert s == y + mo + d + (h + mi + se);
      PieceAt(y + mo, d, h + mi + se);
    }
    assert s[8..10] == h by {
      assert s == y + mo + d + h + (mi + se);
      PieceAt(y + mo + d, h, mi + se);
    }
    assert s[10..12] == mi by {
      PieceAt(y + mo + d + h, mi, se);
    }
    assert s[12..14] == se by {
      assert s == y + mo + d + h + mi + se + [];
      PieceAt(y + mo + d + h + mi, se, []);
    }
  }

  lemma StampRoundTrip(ts: Timestamp)
    requires ValidTimestamp(ts)
    ensures ParseStamp(Stamp(ts)) == ts
  {
    SixPieces(Pad(ts.year, 4), Pad(ts.month, 2), Pad(ts.day, 2),
              Pad(ts.hour, 2), Pad(ts.minute, 2), Pad(ts.second, 2));
    assert Pow10(2) == 100 && Pow10(4) == 10000;
    PadValue(ts.year, 4);
    PadValue(ts.month, 2);
    PadValue(ts.day, 2);
    PadValue(ts.hour, 2);
    PadValue(ts.minute, 2);
    PadValue(ts.second, 2);
  }

  /** `f"{blob_name}-{ts}.txt"`: the blob name, a `-`, fourteen digits and
      `.txt`. */
  function OutputName(blob: string, ts: Timestamp): (name: string)
    ensures |name| == |blob| + 19
    ensures name[..|blob|] == blob && name[|blob|] == '-'
    ensures name[|blob| + 1..|blob| + 15] == Stamp(ts)
    ensures name[|blob| + 15..] == Extension
  {
    PieceAt(blob + "-", Stamp(ts), Extension);
    blob + "-" + Stamp(ts) + Extension
  }

  /** Splits a name of the form `"{blob}-{14 digits}.txt"` back into the blob
      name and the time. */
  function ParseOutputName(name: string): Option<(string, Timestamp)>
  {
    var n := |name|;
    if n >= 19 && name[n - 19] == '-' && AllDigits(name[n - 18..n - 4]) && name[n - 4..] == Extension
    then Some((name[..n - 19], ParseStamp(name[n - 18..n - 4])))
    else None
  }

  /** The output name is the blob name, a `-`, exactly fourteen digits and
      `.txt`, and both the blob name and the time are recovered from it. */
  lemma OutputNameRoundTrip(blob: string, ts: Timestamp)
    requires ValidTimestamp(ts)
    ensures ParseOutputName(OutputName(blob, ts)) == Some((blob, ts))
  {
    var name := OutputName(blob, ts);
    var n := |name|;
    assert n - 19 == |blob| && n - 18 == |blob| + 1 && n - 4 == |blob| + 15;
    StampRoundTrip(ts);
  }

  /** Two completions for the same blob at different seconds write under
      different names; more generally, the name determines blob and time. */
  lemma OutputNameInjective(blob1: string, ts1: Timestamp, blob2: string, ts2: Timestamp)
    requires ValidTimestamp(ts1) && ValidTimestamp(ts2)
    requires OutputName(blob1, ts1) == OutputName(blob2, ts2)
    ensures blob1 == blob2 && ts1 == ts2
  {
    OutputNameRoundTrip(blob1, ts1);
    OutputNameRoundTrip(blob2, ts2);
  }

  /** The blob written to storage. */
  datatype Upload = Upload(container: string, name: string, data: string)

  /** What the activity does: the upload it performs and the name it returns. */
  datatype Written = Written(upload: Upload, name: string)

  /** The name returned is the name uploaded under, in the `output` container,
      with the summary as data; and it encodes the blob name and the time. */
  function Write(blob: string, summary: string, ts: Timestamp): (w: Written)
    requires ValidTimestamp(ts)
    ensures w.upload == Upload(OutputContainer, w.name, summary)
    ensures ParseOutputName(w.name) == Some((blob, ts))
  {
    OutputNameRoundTrip(blob, ts);
    var name := OutputName(blob, ts);
    Written(Upload(OutputContainer, name, summary), name)
  }
}
