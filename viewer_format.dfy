/**
 * The viewer's file-size label (`formatFileSize`): a byte count shown in bytes,
 * kilobytes or megabytes, with `null` for anything that is not a finite,
 * non-negative number.
 */
module ViewerFormat {
  import opened Wrappers
  import opened Numbers
  import opened Js
  import opened Text

  const KIBIBYTE: real := 1024.0
  const MEBIBYTE: real := 1048576.0

  /** The unit a label is written in. */
  datatype SizeUnit = Bytes | Kilobytes | Megabytes

  /** The unit `formatFileSize` picks for a non-negative byte count. */
  function UnitFor(n: real): SizeUnit
  {
    if n < KIBIBYTE then Bytes else if n < MEBIBYTE then Kilobytes else Megabytes
  }

  /** The unit a label names, read from its suffix. */
  function UnitOfLabel(caption: string): SizeUnit
  {
    if EndsWith(caption, " MB") then Megabytes else if EndsWith(caption, " kB") then Kilobytes else Bytes
  }

  /** A quantity followed by a suffix names the suffix's unit. */
  lemma LabelUnit(quantity: string, suffix: string)
    requires suffix == " B" || suffix == " kB" || suffix == " MB"
    ensures UnitOfLabel(quantity + suffix) ==
      if suffix == " MB" then Megabytes else if suffix == " kB" then Kilobytes else Bytes
  {
    var s := quantity + suffix;
    AffixesOfConcat(quantity, suffix);
    if suffix == " B" && |s| >= 3 {
      assert s[|s| - 2] == ' ';
    } else if suffix == " kB" {
      assert s[|s| - 2] == 'k';
    }
  }

  /** `Number(bytes)` when it is a finite count of at least zero. */
  predicate IsByteCount(rt: JsRuntime, bytes: JsValue)
  {
    var numeric := ToNumber(rt, bytes);
    numeric.Finite? && numeric.value >= 0.0
  }

  /** `formatFileSize(bytes)`: the label, or None where the viewer gets `null`. */
  function FormatFileSize(rt: JsRuntime, bytes: JsValue): (r: Option<string>)
    ensures r.None? <==> !IsByteCount(rt, bytes)
    ensures r.Some? ==> UnitOfLabel(r.value) == UnitFor(ToNumber(rt, bytes).value)
  {
    var numeric := ToNumber(rt, bytes);
    if !numeric.Finite? || numeric.value < 0.0 then None
    else Some(SizeLabel(rt, numeric.value))
  }

  /** The label for a finite, non-negative byte count `n`. */
  function SizeLabel(rt: JsRuntime, n: real): (caption: string)
    requires n >= 0.0
    ensures UnitOfLabel(caption) == UnitFor(n)
  {
    if n == 0.0 then
      LabelUnit("0", " B");
      "0 B"
    else if n < KIBIBYTE then
      LabelUnit(IntToString(RoundHalfUp(n)), " B");
      IntToString(RoundHalfUp(n)) + " B"
    else if n >= MEBIBYTE then
      LabelUnit(rt.toFixed2(n / 1048576.0), " MB");
      rt.toFixed2(n / 1048576.0) + " MB"
    else
      var kilobytes := n / 1024.0;
      var roundedKilobytes := RoundHalfUp(kilobytes * 10.0) as real / 10.0;
      LabelUnit(rt.toFixed1(roundedKilobytes), " kB");
      rt.toFixed1(roundedKilobytes) + " kB"
  }

  /** Below 1 KiB the label is the whole number nearest the count, halves rounded up. */
  lemma BytesToNearest(rt: JsRuntime, bytes: JsValue, k: int)
    requires IsByteCount(rt, bytes) && ToNumber(rt, bytes).value < KIBIBYTE
    requires k as real - 0.5 <= ToNumber(rt, bytes).value < k as real + 0.5
    ensures FormatFileSize(rt, bytes) == Some(IntToString(k) + " B")
  {
    var n := ToNumber(rt, bytes).value;
    if n == 0.0 {
      assert k == 0;
      assert DigitChar(0) == '0';
      assert IntToString(0) + " B" == "0 B";
    } else {
      assert RoundHalfUp(n) == k;
    }
  }

  /** From 1 KiB to below 1 MiB the label is the count in KiB to the nearest tenth, halves rounded up. */
  lemma KilobytesToNearestTenth(rt: JsRuntime, bytes: JsValue, tenths: int)
    requires IsByteCount(rt, bytes) && KIBIBYTE <= ToNumber(rt, bytes).value < MEBIBYTE
    requires tenths as real - 0.5 <= ToNumber(rt, bytes).value / 1024.0 * 10.0 < tenths as real + 0.5
    ensures FormatFileSize(rt, bytes) == Some(rt.toFixed1(tenths as real / 10.0) + " kB")
  {
    var n := ToNumber(rt, bytes).value;
    assert RoundHalfUp(n / 1024.0 * 10.0) == tenths;
  }

  /** From 1 MiB up the label is the count in MiB rendered with two decimals. */
  lemma MegabytesToTwoDecimals(rt: JsRuntime, bytes: JsValue)
    requires IsByteCount(rt, bytes) && ToNumber(rt, bytes).value >= MEBIBYTE
    ensures FormatFileSize(rt, bytes) == Some(rt.toFixed2(ToNumber(rt, bytes).value / 1048576.0) + " MB")
  {
  }

  /** 512 bytes read "512 B". */
  lemma BytesExample(rt: JsRuntime)
    ensures FormatFileSize(rt, Num(Finite(512.0))) == Some("512 B")
  {
    BytesToNearest(rt, Num(Finite(512.0)), 512);
    Written512();
  }

  lemma Written512()
    ensures IntToString(512) + " B" == "512 B"
  {
    assert NatToString(5) == "5" && NatToString(51) == "51" && NatToString(512) == "512";
  }

  /** Zero reads "0 B"; negative, NaN and undefined have no label. */
  lemma ZeroAndInvalidExamples(rt: JsRuntime)
    ensures FormatFileSize(rt, Num(Finite(0.0))) == Some("0 B")
    ensures FormatFileSize(rt, Num(Finite(-5.0))) == None
    ensures FormatFileSize(rt, Num(NaN)) == None
    ensures FormatFileSize(rt, Undefined) == None
  {
  }

  /** 1536 bytes read 1.5 kB; 1 MiB and 2.5 MiB read 1.00 and 2.50 MB. */
  lemma LargerExamples(rt: JsRuntime)
    ensures FormatFileSize(rt, Num(Finite(1536.0))) == Some(rt.toFixed1(1.5) + " kB")
    ensures FormatFileSize(rt, Num(Finite(1048576.0))) == Some(rt.toFixed2(1.0) + " MB")
    ensures FormatFileSize(rt, Num(Finite(2621440.0))) == Some(rt.toFixed2(2.5) + " MB")
  {
    KilobytesToNearestTenth(rt, Num(Finite(1536.0)), 15);
  }

  /**
   * Rounding happens after the unit is chosen, so a count just under 1 KiB is
   * labelled "1024 B" rather than in kilobytes.
   */
  lemma BytesRoundPastThreshold(rt: JsRuntime)
    ensures FormatFileSize(rt, Num(Finite(1023.5))) == Some("1024 B")
  {
    BytesToNearest(rt, Num(Finite(1023.5)), 1024);
    Written1024();
  }

  lemma Written1024()
    ensures IntToString(1024) + " B" == "1024 B"
  {
    assert NatToString(1) == "1" && NatToString(10) == "10" && NatToString(102) == "102";
    assert NatToString(1024) == "1024";
  }

  /** Likewise a count just under 1 MiB is labelled 1024.0 kB rather than in megabytes. */
  lemma KilobytesRoundPastThreshold(rt: JsRuntime)
    ensures FormatFileSize(rt, Num(Finite(1048575.0))) == Some(rt.toFixed1(1024.0) + " kB")
  {
    KilobytesToNearestTenth(rt, Num(Finite(1048575.0)), 10240);
  }
}
