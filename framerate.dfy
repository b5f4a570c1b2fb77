/**
 * The frame rate the encoder is given: the probe tool prints the first video
 * stream's rate as `numerator/denominator`, and `get_video_fps` strips that
 * text, splits it on `/` into exactly two fields and divides them. Here the
 * rate is kept as the exact ratio instead of a float.
 */
module FrameRate {
  import opened Wrappers
  import opened Text

  /** The exact rate `num / den` frames per second. */
  datatype Rate = Rate(num: int, den: int)

  datatype FpsError =
    | PartCount(parts: nat)      // `num, den = ...` unpacks a list whose length is not 2
    | NotANumber(field: string)  // `float(field)` rejects the field
    | ZeroDenominator            // the division by `float(den)` divides by zero

  /** The rate as a number: what the float division approximates. */
  function Fps(r: Rate): real
    requires r.den != 0
  {
    r.num as real / r.den as real
  }

  /** `get_video_fps` on the probe's standard output, with the rate kept exact. */
  function ParseFrameRate(stdout: string): (r: Result<Rate, FpsError>)
    ensures r.Ok? ==> r.value.den != 0
    ensures Count(stdout, '/') != 1 <==> r == Err(PartCount(Count(stdout, '/') + 1))
    ensures r.Err? && r.error.NotANumber? ==> '/' !in r.error.field && ParseInt(r.error.field).None?
  {
    var parts := Split(Strip(stdout), '/');
    CountStrip(stdout, '/');
    if |parts| != 2 then Err(PartCount(|parts|)) else ParseFields(parts[0], parts[1])
  }

  /** `float(num) / float(den)` on the two fields, kept exact. */
  function ParseFields(num: string, den: string): (r: Result<Rate, FpsError>)
    ensures r.Ok? <==> ParseInt(num).Some? && ParseInt(den).Some? && ParseInt(den).value != 0
    ensures r.Ok? ==> r.value == Rate(ParseInt(num).value, ParseInt(den).value)
    ensures r.Err? ==> r.error == NotANumber(num) || r.error == NotANumber(den) || r.error == ZeroDenominator
    ensures r.Err? && r.error.NotANumber? ==> ParseInt(r.error.field).None?
    ensures ParseInt(num).None? ==> r == Err(NotANumber(num))
    ensures ParseInt(num).Some? && ParseInt(den).None? ==> r == Err(NotANumber(den))
  {
    match ParseInt(num)
    case None => Err(NotANumber(num))
    case Some(n) =>
      match ParseInt(den)
      case None => Err(NotANumber(den))
      case Some(d) => if d == 0 then Err(ZeroDenominator) else Ok(Rate(n, d))
  }

  /**
   * Whatever the two fields around the one `/` are, the rate is what
   * `float(num) / float(den)` makes of those two fields.
   */
  lemma ParseFrameRateFields(stdout: string, num: string, den: string)
    requires Strip(stdout) == num + "/" + den
    requires '/' !in num && '/' !in den
    ensures ParseFrameRate(stdout) == ParseFields(num, den)
  {
    SplitTwo(num, den);
  }

  /**
   * A field padded with a separator control is not a number to `float()`,
   * though `strip()` would remove that character.
   */
  lemma SeparatorControlIsNotANumber()
    ensures ParseFrameRate("30000\U{1c}/1001") == Err(NotANumber("30000\U{1c}"))
  {
    var num: string, den: string := "30000\U{1c}", "1001";
    assert '/' !in num && '/' !in den by {
      assert forall k :: 0 <= k < |num| ==> num[k] != '/';
    }
    var stdout := num + "/" + den;
    assert stdout == "30000\U{1c}/1001";
    assert !IsSpace(stdout[0]) && !IsSpace(stdout[|stdout| - 1]);
    StripPadding([], stdout, []);
    assert [] + stdout + [] == stdout;
    SeparatorControlRejected(num, 5);
    ParseFrameRateFields(stdout, num, den);
  }

  /** Text with one `/` splits into the two fields around it. */
  lemma SplitTwo(num: string, den: string)
    requires '/' !in num && '/' !in den
    ensures Split(num + "/" + den, '/') == [num, den]
  {
    assert num + "/" + den == num + ['/'] + den;
    SplitAround(num, den, '/');
    SplitNoSeparator(num, '/');
    SplitNoSeparator(den, '/');
  }

  /** What the probe prints for a stream whose rate is `r`. */
  function ProbeText(r: Rate): string {
    ShowInt(r.num) + "/" + ShowInt(r.den)
  }

  /**
   * The probe's `num/den`, with any whitespace around it, parses back to
   * exactly `num` and `den`, with no rounding; a zero denominator is the
   * one failure.
   */
  lemma ParseProbeText(pre: string, r: Rate, post: string)
    requires AllSpace(pre) && AllSpace(post)
    ensures ParseFrameRate(pre + ProbeText(r) + post) ==
      if r.den == 0 then Err(ZeroDenominator) else Ok(r)
  {
    var t := ProbeText(r);
    assert t[0] == ShowInt(r.num)[0] && t[|t| - 1] == ShowInt(r.den)[|ShowInt(r.den)| - 1];
    StripPadding(pre, t, post);
    ProbeFields(r);
    ShowIntParses(r.num);
    ShowIntParses(r.den);
  }

  /** The probe's text splits on `/` into the two numbers as written. */
  lemma ProbeFields(r: Rate)
    ensures Split(ProbeText(r), '/') == [ShowInt(r.num), ShowInt(r.den)]
  {
    SplitTwo(ShowInt(r.num), ShowInt(r.den));
  }

  /** A number as written, with nothing around it, reads back as itself. */
  lemma ShowIntParses(i: int)
    ensures ParseInt(ShowInt(i)) == Some(i)
  {
    ParseShowInt([], i, []);
    assert [] + ShowInt(i) + [] == ShowInt(i);
  }

  lemma NtscProbeText()
    ensures ProbeText(Rate(30000, 1001)) == "30000/1001"
  {
    assert Show(30000) == "30000" by {
      assert DigitChar(0) == '0' && DigitChar(3) == '3';
      assert Show(3) == "3";
      assert Show(30) == Show(3) + "0";
      assert Show(300) == Show(30) + "0";
      assert Show(3000) == Show(300) + "0";
      assert Show(30000) == Show(3000) + "0";
    }
    assert Show(1001) == "1001" by {
      assert DigitChar(0) == '0' && DigitChar(1) == '1';
      assert Show(1) == "1";
      assert Show(10) == Show(1) + "0";
      assert Show(100) == Show(10) + "0";
      assert Show(1001) == Show(100) + "1";
    }
  }

  /** The NTSC rate reaches the encoder as 30000/1001, not as a rounded 29.97. */
  lemma NtscRateIsExact(stdout: string)
    requires stdout == "30000/1001\n"
    ensures ParseFrameRate(stdout) == Ok(Rate(30000, 1001))
    ensures Fps(ParseFrameRate(stdout).value) == 30000.0 / 1001.0
  {
    var newline := "\n";
    NtscProbeText();
    assert AllSpace(newline);
    ParseProbeText([], Rate(30000, 1001), newline);
    assert stdout == [] + ProbeText(Rate(30000, 1001)) + newline;
  }
}
