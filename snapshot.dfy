/**
 * One sampling cycle: the optional GPU sample, and the assembly of the
 * display-ready `SystemInfo` from raw RAM, CPU and GPU readings.
 */
module Snapshot {
  import opened Wrappers
  import opened Ints
  import opened Units

  /** `base^2`: the GPU tool reports frame-buffer sizes in MiB. */
  const VRAM_MULT: nat := 0x10_0000

  /** Usage value meaning "no GPU data". */
  const NO_GPU: u8 := 255

  /** VRAM sizes (in MiB) below this bound do not overflow u64 once converted to bytes. */
  const VRAM_MIB_BOUND: nat := 0x1000_0000_0000

  type UnitBytes = s: seq<u8> | |s| == 4 witness [0, 0, 0, 0]

  /** The display-ready record sent to the device. */
  datatype SystemInfo = SystemInfo(
    cpuUsage: u8,
    ramMax: u16,
    ramUsage: u8,
    ramUnit: UnitBytes,
    gpuUsage: u8,
    vramMax: u16,
    vramUsage: u8,
    vramUnit: UnitBytes)

  /** One GPU sample: utilisation in percent, frame-buffer total and used in MiB. */
  datatype GpuInfo = GpuInfo(gpuUsage: u64, vramMax: u64, vramUsed: u64)

  /**
   * What the GPU tool's report yielded for the three fields, each already
   * parsed as an integer (`None` when the field is missing or unparsable).
   */
  datatype GpuReport = GpuReport(gpuUtil: Option<u64>, fbTotal: Option<u64>, fbUsed: Option<u64>)

  /**
   * `GpuInfo::get_gpu_info`: `report` is `None` when the tool could not be
   * started, its output could not be read or did not parse as XML.  Every
   * field must parse; the first one that does not makes the sample absent.
   */
  function GetGpuInfo(report: Option<GpuReport>): (r: Option<GpuInfo>)
    ensures r.Some? <==> report.Some? && report.value.gpuUtil.Some?
                         && report.value.fbTotal.Some? && report.value.fbUsed.Some?
    ensures r.Some? ==> && r.value.gpuUsage == report.value.gpuUtil.value
                        && r.value.vramMax == report.value.fbTotal.value
                        && r.value.vramUsed == report.value.fbUsed.value
  {
    match report
    case None => None
    case Some(g) =>
      match g.gpuUtil
      case None => None
      case Some(gpuUsage) =>
        match g.fbTotal
        case None => None
        case Some(vramMax) =>
          match g.fbUsed
          case None => None
          case Some(vramUsed) => Some(GpuInfo(gpuUsage, vramMax, vramUsed))
  }

  function Sum(xs: seq<nat>): (total: nat) {
    if xs == [] then 0 else Sum(xs[..|xs| - 1]) + xs[|xs| - 1]
  }

  lemma {:induction false} SumAtMost(xs: seq<nat>, m: nat)
    requires forall i :: 0 <= i < |xs| ==> xs[i] <= m
    ensures Sum(xs) <= m * |xs|
  {
    if xs != [] {
      SumAtMost(xs[..|xs| - 1], m);
    }
  }

  /**
   * `avg_vecu32`: the truncated arithmetic mean.  Its definition lives in a
   * helper file that is not part of this model; this is its assumed meaning.
   */
  function Mean(xs: seq<nat>): (r: nat)
    requires |xs| > 0
    ensures r * |xs| <= Sum(xs) < (r + 1) * |xs|
  {
    var q := Sum(xs) / |xs|;
    assert Sum(xs) == q * |xs| + Sum(xs) % |xs|;
    q
  }

  /** The mean of per-core percentages is itself a percentage. */
  lemma MeanOfPercentages(xs: seq<nat>)
    requires |xs| > 0
    ensures (forall i :: 0 <= i < |xs| ==> xs[i] <= 100) ==> Mean(xs) <= 100
  {
    if forall i :: 0 <= i < |xs| ==> xs[i] <= 100 {
      SumAtMost(xs, 100);
    }
    var r := Mean(xs);
    if r > 100 && forall i :: 0 <= i < |xs| ==> xs[i] <= 100 {
      MulMonotone(101, r, |xs|);
      assert false;
    }
  }

  /**
   * `part / whole * 100` cast to u8: truncated, saturating at 255; a zero
   * `whole` gives NaN (cast to 0) when `part` is zero and infinity (cast to
   * 255) otherwise.
   */
  function Percent(part: nat, whole: nat): (r: u8)
    ensures whole > 0 && part <= whole ==> r <= 100 && r * whole <= part * 100 < r * whole + whole
    ensures whole > 0 && part > whole ==> r >= 100
    ensures whole == 0 && part == 0 ==> r == 0
    ensures whole == 0 && part > 0 ==> r == 255
  {
    if whole == 0 then (if part == 0 then 0 else 255)
    else if part <= whole then
      var q := part * 100 / whole;
      TruncatedPercent(part, whole, q);
      q
    else
      MulMonotone(whole, part, 100);
      DivAtLeast(part * 100, 100, whole);
      SaturateU8(part * 100 / whole)
  }

  lemma TruncatedPercent(part: nat, whole: nat, q: nat)
    requires 0 < whole && part <= whole && q == part * 100 / whole
    ensures q <= 100 && q * whole <= part * 100 < q * whole + whole
  {
    assert part * 100 == q * whole + part * 100 % whole;
    MulMonotone(part, whole, 100);
    DivAtMost(part * 100, 100, whole);
  }

  lemma DivCancel(a: nat, b: nat, m: nat)
    requires b > 0 && m > 0
    ensures (a * m) / (b * m) == a / b
  {
    var q, r := a / b, a % b;
    assert a == q * b + r && r < b;
    assert a * m == q * (b * m) + r * m;
    MulMonotone(r + 1, b, m);
    assert r * m < b * m;
    DivUnique(a * m, b * m, q, r * m);
  }

  lemma DivUnique(x: nat, d: nat, q: nat, r: nat)
    requires d > 0 && x == q * d + r && r < d
    ensures x / d == q
  {
    var q', r' := x / d, x % d;
    assert x == q' * d + r' && r' < d;
    if q' > q {
      MulMonotone(q + 1, q', d);
      assert false;
    } else if q' < q {
      MulMonotone(q' + 1, q, d);
      assert false;
    }
  }

  /** A percentage does not depend on the unit both quantities are measured in. */
  lemma PercentScaleFree(part: nat, whole: nat, m: nat)
    requires m > 0
    ensures Percent(part * m, whole * m) == Percent(part, whole)
  {
    if whole > 0 {
      assert part * m * 100 == (part * 100) * m;
      DivCancel(part * 100, whole, m);
    }
  }

  /** The inputs of one sampling cycle, as reported by the OS and the GPU tool. */
  datatype Readings = Readings(
    ramTotal: u64,
    ramUsed: u64,
    coreUsages: seq<nat>,
    gpu: Option<GpuInfo>)

  /**
   * The source's demands on a cycle's inputs: at least one logical core, and
   * a VRAM size whose byte count fits u64.
   */
  predicate ValidReadings(r: Readings) {
    && |r.coreUsages| > 0
    && (r.gpu.Some? ==> r.gpu.value.vramMax < VRAM_MIB_BOUND)
  }

  /** Total VRAM in bytes: the MiB figure times `BASE^2`; 0 without a GPU sample. */
  function VramBytes(gpu: Option<GpuInfo>): (b: u64)
    requires gpu.Some? ==> gpu.value.vramMax < VRAM_MIB_BOUND
    ensures gpu.None? ==> b == 0
    ensures gpu.Some? ==> b == gpu.value.vramMax * Pow(BASE, 2)
  {
    BasePowers();
    match gpu
    case None => 0
    case Some(g) => g.vramMax * VRAM_MULT
  }

  /** `SystemInfo::get_system_info` on the given readings. */
  function GetSystemInfo(r: Readings): (info: SystemInfo)
    requires ValidReadings(r)
    ensures info.ramUnit[0] != 0 && info.vramUnit[0] != 0
    ensures r.gpu.None? ==> info.gpuUsage == NO_GPU && info.vramUsage == NO_GPU
  {
    var ramExp := GetExp(r.ramTotal, BASE);
    var vramMax := VramBytes(r.gpu);
    var vramExp := GetExp(vramMax, BASE);
    SystemInfo(
      cpuUsage := WrapU8(Mean(r.coreUsages)),
      ramMax := SaturateU16(ScaledTenths(r.ramTotal, BASE, ramExp)),
      ramUsage := Percent(r.ramUsed, r.ramTotal),
      ramUnit := UnitField(ramExp),
      gpuUsage := match r.gpu case Some(g) => WrapU8(g.gpuUsage) case None => NO_GPU,
      vramMax := SaturateU16(ScaledTenths(vramMax, BASE, vramExp)),
      vramUsage := match r.gpu
                   case Some(g) => Percent(g.vramUsed * VRAM_MULT, vramMax)
                   case None => NO_GPU,
      vramUnit := UnitField(vramExp))
  }

  /** With per-core usages that are percentages, the CPU field is their truncated mean. */
  lemma CpuField(r: Readings)
    requires ValidReadings(r)
    ensures (forall i :: 0 <= i < |r.coreUsages| ==> r.coreUsages[i] <= 100) ==>
              GetSystemInfo(r).cpuUsage == Mean(r.coreUsages)
  {
    MeanOfPercentages(r.coreUsages);
  }

  /**
   * The RAM fields: the unit `GetExp` picks, the total in tenths of that
   * unit (exact and at most 10240 below "TB"), and the used share as a
   * truncated percentage.
   */
  lemma RamFields(r: Readings)
    requires ValidReadings(r)
    ensures GetSystemInfo(r).ramUnit == UnitField(GetExp(r.ramTotal, BASE))
    ensures GetExp(r.ramTotal, BASE) < MAX_EXP ==>
              GetSystemInfo(r).ramMax == r.ramTotal * 10 / Pow(BASE, GetExp(r.ramTotal, BASE)) <= 10240
    ensures 0 < r.ramTotal && r.ramUsed <= r.ramTotal ==>
              GetSystemInfo(r).ramUsage <= 100
              && GetSystemInfo(r).ramUsage * r.ramTotal <= r.ramUsed * 100
                 < GetSystemInfo(r).ramUsage * r.ramTotal + r.ramTotal
    ensures r.ramTotal <= 6553 * Pow(BASE, MAX_EXP) ==>
              GetSystemInfo(r).ramMax == r.ramTotal * 10 / Pow(BASE, GetExp(r.ramTotal, BASE))
    ensures r.ramTotal * 10 >= U16_BOUND * Pow(BASE, MAX_EXP) ==> GetSystemInfo(r).ramMax == U16_BOUND - 1
  {
    ScaledTenthsFitU16(r.ramTotal);
    BasePowers();
    if r.ramTotal * 10 >= U16_BOUND * Pow(BASE, MAX_EXP) {
      DivAtLeast(r.ramTotal * 10, U16_BOUND, Pow(BASE, MAX_EXP));
    }
  }

  /** Without a GPU sample both GPU usages are the sentinel and VRAM reads 0 "B". */
  lemma NoGpuFields(r: Readings)
    requires ValidReadings(r) && r.gpu.None?
    ensures GetSystemInfo(r).gpuUsage == NO_GPU && GetSystemInfo(r).vramUsage == NO_GPU
    ensures GetSystemInfo(r).vramMax == 0
    ensures GetSystemInfo(r).vramUnit == [66, 0, 0, 0]
  {
    assert GetExp(0, BASE) == 0;
    assert GetUnit(0) == "B";
  }

  /**
   * With a GPU sample the usage is passed through (distinct from the
   * sentinel when it is a percentage), the VRAM unit is chosen for the byte
   * count, and the VRAM share equals the share of the MiB figures.
   */
  lemma GpuFields(r: Readings)
    requires ValidReadings(r) && r.gpu.Some?
    ensures r.gpu.value.gpuUsage <= 100 ==>
              GetSystemInfo(r).gpuUsage == r.gpu.value.gpuUsage != NO_GPU
    ensures GetSystemInfo(r).vramUnit == UnitField(GetExp(r.gpu.value.vramMax * VRAM_MULT, BASE))
    ensures GetSystemInfo(r).vramUsage == Percent(r.gpu.value.vramUsed, r.gpu.value.vramMax)
  {
    PercentScaleFree(r.gpu.value.vramUsed, r.gpu.value.vramMax, VRAM_MULT);
  }

  /**
   * VRAM is shown exactly as RAM of the same size in bytes would be: the MiB
   * figure is multiplied by `BASE^2` before the exponent and the scaled
   * value are computed.
   */
  lemma VramUnitFromMebibytes(r: Readings)
    requires ValidReadings(r) && r.gpu.Some?
    ensures var h := r.(ramTotal := r.gpu.value.vramMax * Pow(BASE, 2));
            && ValidReadings(h)
            && GetSystemInfo(r).vramMax == GetSystemInfo(h).ramMax
            && GetSystemInfo(r).vramUnit == GetSystemInfo(h).ramUnit
  {
    BasePowers();
  }

  /** An 8 GiB card (8192 MiB) is shown as 8.0 "GB". */
  lemma EightGibibyteCard(r: Readings)
    requires ValidReadings(r) && r.gpu.Some? && r.gpu.value.vramMax == 8192
    ensures GetSystemInfo(r).vramMax == 80
    ensures GetSystemInfo(r).vramUnit == UnitField(3)
  {
    BasePowers();
    assert 8192 * VRAM_MULT == 0x2_0000_0000;
  }

  /** With 16 GiB of RAM the RAM fields read 16.0 "GB". */
  lemma SixteenGibibyteHost(r: Readings)
    requires ValidReadings(r) && r.ramTotal == 0x4_0000_0000
    ensures GetSystemInfo(r).ramMax == 160
    ensures GetSystemInfo(r).ramUnit == [71, 66, 0, 0]
  {
    SixteenGibibytes();
  }

  /** The truncated means of the cores [10, 20, 30] and [10, 11]. */
  lemma MeanExamples()
    ensures Mean([10, 20, 30]) == 20
    ensures Mean([10, 11]) == 10
  {
    assert Sum([10, 20, 30]) == 60 by {
      assert [10, 20, 30][..2] == [10, 20];
      assert [10, 20][..1] == [10];
      assert [10][..0] == [];
    }
    assert Sum([10, 11]) == 21 by {
      assert [10, 11][..1] == [10];
      assert [10][..0] == [];
    }
  }
}
