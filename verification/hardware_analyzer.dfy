/**
 * The decision logic of the hardware analyser: reading the `lspci` and
 * `dmidecode` results, sorting PCI devices into GPUs and AI accelerators,
 * recognising NUC / Compute Stick systems, choosing compiler flags from the
 * CPU model and extracting the core count used for parallel builds.
 * The commands themselves are not run here: their results are inputs,
 * `None` standing for a command that is missing or failed.
 */
module HardwareAnalyzer {
  import opened Wrappers
  import opened Text

  // ---------------------------------------------------------------------
  // PCI device listing
  // ---------------------------------------------------------------------

  /** The lines of the `lspci` output; no lines when the command gave nothing. */
  function GetPciDevices(lspciOutput: Option<string>): (lines: seq<string>)
    ensures lines == [] <==> lspciOutput == None || lspciOutput == Some("")
    ensures lspciOutput.Some? && lspciOutput.value != "" ==>
      Join(lines, '\n') == lspciOutput.value &&
      forall i :: 0 <= i < |lines| ==> '\n' !in lines[i]
  {
    match lspciOutput
    case None => []
    case Some(text) =>
      if text == "" then []
      else
        JoinSplit(text, '\n');
        SplitPiecesOmitSeparator(text, '\n');
        Split(text, '\n')
  }

  // ---------------------------------------------------------------------
  // Device classification
  // ---------------------------------------------------------------------

  const GPU_CLASS := "VGA compatible controller"
  const GPU_VENDOR := "Intel"
  const ACCELERATOR_CLASS := "Processing accelerators"
  const NPU_MARKER := "NPU"
  const GNA_MARKER := "Gaussian & Neural-Network Accelerator"
  /** `lspci` puts the device name after the first `": "` of a line. */
  const NAME_SEPARATOR := ": "

  /** What one `lspci` line is taken to describe. */
  datatype DeviceKind = Gpu | Npu | Gna | Unrecognized

  datatype AcceleratorType = NPU | GNA

  /** `{"Name": ...}` */
  datatype GpuEntry = GpuEntry(name: string)

  /** `{"Type": "NPU" | "GNA", "Name": ...}` */
  datatype AcceleratorEntry = AcceleratorEntry(kind: AcceleratorType, name: string)

  /** The pair `(gpu_info, accelerator_info)`. */
  datatype PciReport = PciReport(gpus: seq<GpuEntry>, accelerators: seq<AcceleratorEntry>)

  /** The `IndexError` raised by `split(': ', 1)[1]` on the line at `index`. */
  datatype ParseError = MissingNameSeparator(index: nat)

  ghost predicate GpuSignature(line: string) {
    Occurs(line, GPU_CLASS) && Occurs(line, GPU_VENDOR)
  }

  ghost predicate NpuSignature(line: string) {
    Occurs(line, ACCELERATOR_CLASS) && Occurs(line, NPU_MARKER)
  }

  ghost predicate GnaSignature(line: string) {
    Occurs(line, GNA_MARKER)
  }

  /** The tests of one loop iteration, in their order. */
  function Classify(line: string): DeviceKind {
    if Contains(line, GPU_CLASS) && Contains(line, GPU_VENDOR) then Gpu
    else if Contains(line, ACCELERATOR_CLASS) && Contains(line, NPU_MARKER) then Npu
    else if Contains(line, GNA_MARKER) then Gna
    else Unrecognized
  }

  /**
   * The tests are case-sensitive substring tests tried in the order GPU,
   * NPU, GNA; the first that holds decides, so each line is of one kind.
   */
  lemma ClassifyBySignature(line: string)
    ensures Classify(line) == Gpu <==> GpuSignature(line)
    ensures Classify(line) == Npu <==> !GpuSignature(line) && NpuSignature(line)
    ensures Classify(line) == Gna <==> !GpuSignature(line) && !NpuSignature(line) && GnaSignature(line)
    ensures Classify(line) == Unrecognized <==> !GpuSignature(line) && !NpuSignature(line) && !GnaSignature(line)
  {
  }

  /** `line.split(': ', 1)[1]`: everything after the first `": "`, or nothing when absent. */
  function DeviceName(line: string): Option<string> {
    match Find(line, NAME_SEPARATOR)
    case None => None
    case Some(i) => Some(line[i + 2..])
  }

  /** A name exists exactly when the line has a `": "`, and is what follows its first occurrence. */
  lemma DeviceNameAfterFirstSeparator(line: string)
    ensures DeviceName(line).None? <==> !Occurs(line, NAME_SEPARATOR)
    ensures DeviceName(line).Some? ==>
      var i := |line| - |DeviceName(line).value| - 2;
      0 <= i && OccursAt(line, NAME_SEPARATOR, i) && line[i + 2..] == DeviceName(line).value &&
      forall j :: 0 <= j < i ==> !OccursAt(line, NAME_SEPARATOR, j)
  {
  }

  /** The effect of one loop iteration on the report built so far. */
  function AddDevice(report: PciReport, line: string, index: nat): Result<PciReport, ParseError> {
    var kind := Classify(line);
    if kind == Unrecognized then Ok(report)
    else
      match DeviceName(line)
      case None => Err(MissingNameSeparator(index))
      case Some(name) =>
        if kind == Gpu then Ok(report.(gpus := report.gpus + [GpuEntry(name)]))
        else if kind == Npu then Ok(report.(accelerators := report.accelerators + [AcceleratorEntry(NPU, name)]))
        else Ok(report.(accelerators := report.accelerators + [AcceleratorEntry(GNA, name)]))
  }

  /** What `parse_pci_devices` returns, or the error it raises, for `lines`. */
  function PciReportOf(lines: seq<string>): Result<PciReport, ParseError>
    decreases |lines|
  {
    if lines == [] then Ok(PciReport([], []))
    else
      match PciReportOf(lines[..|lines| - 1])
      case Err(e) => Err(e)
      case Ok(report) => AddDevice(report, lines[|lines| - 1], |lines| - 1)
  }

  /** `parse_pci_devices`: one pass over the lines, appending to the two lists. */
  method ParsePciDevices(pciDevices: seq<string>) returns (result: Result<PciReport, ParseError>)
    ensures result == PciReportOf(pciDevices)
  {
    var gpuInfo: seq<GpuEntry> := [];
    var acceleratorInfo: seq<AcceleratorEntry> := [];
    var i := 0;
    while i < |pciDevices|
      invariant 0 <= i <= |pciDevices|
      invariant PciReportOf(pciDevices[..i]) == Ok(PciReport(gpuInfo, acceleratorInfo))
    {
      var device := pciDevices[i];
      assert pciDevices[..i + 1][..i] == pciDevices[..i];
      var kind := Classify(device);
      if kind != Unrecognized {
        var name := DeviceName(device);
        if name.None? {
          PciReportErrorPersists(pciDevices, i + 1);
          return Err(MissingNameSeparator(i));
        }
        if kind == Gpu {
          gpuInfo := gpuInfo + [GpuEntry(name.value)];
        } else if kind == Npu {
          acceleratorInfo := acceleratorInfo + [AcceleratorEntry(NPU, name.value)];
        } else {
          acceleratorInfo := acceleratorInfo + [AcceleratorEntry(GNA, name.value)];
        }
      }
      i := i + 1;
    }
    assert pciDevices[..i] == pciDevices;
    result := Ok(PciReport(gpuInfo, acceleratorInfo));
  }

  // ----- an independent, front-to-back description of the result -----

  /** Every recognised line carries a device name. */
  ghost predicate NamesPresent(lines: seq<string>) {
    forall i :: 0 <= i < |lines| && Classify(lines[i]) != Unrecognized ==> Occurs(lines[i], NAME_SEPARATOR)
  }

  /** The GPU entry one line contributes: one for a named GPU line, none otherwise. */
  function GpuEntryOf(line: string): seq<GpuEntry> {
    if Classify(line) == Gpu && DeviceName(line).Some? then [GpuEntry(DeviceName(line).value)] else []
  }

  /** The accelerator entry one line contributes: one for a named NPU or GNA line, none otherwise. */
  function AcceleratorEntryOf(line: string): seq<AcceleratorEntry> {
    var kind := Classify(line);
    if (kind == Npu || kind == Gna) && DeviceName(line).Some?
    then [AcceleratorEntry(if kind == Npu then NPU else GNA, DeviceName(line).value)] else []
  }

  /** The GPU entries of the recognised GPU lines, in input order. */
  function GpuEntries(lines: seq<string>): seq<GpuEntry>
    decreases |lines|
  {
    if lines == [] then [] else GpuEntryOf(lines[0]) + GpuEntries(lines[1..])
  }

  /** The accelerator entries of the recognised NPU and GNA lines, in input order. */
  function AcceleratorEntries(lines: seq<string>): seq<AcceleratorEntry>
    decreases |lines|
  {
    if lines == [] then [] else AcceleratorEntryOf(lines[0]) + AcceleratorEntries(lines[1..])
  }

  /** Number of lines that match one of the three signatures. */
  function RecognisedCount(lines: seq<string>): (n: nat)
    ensures n <= |lines|
    decreases |lines|
  {
    if lines == [] then 0
    else (if Classify(lines[0]) != Unrecognized then 1 else 0) + RecognisedCount(lines[1..])
  }

  lemma {:induction false} GpuEntriesSnoc(lines: seq<string>, x: string)
    ensures GpuEntries(lines + [x]) == GpuEntries(lines) + GpuEntryOf(x)
    decreases |lines|
  {
    if lines == [] {
      assert lines + [x] == [x];
      assert [x][1..] == [];
    } else {
      assert (lines + [x])[0] == lines[0];
      assert (lines + [x])[1..] == lines[1..] + [x];
      GpuEntriesSnoc(lines[1..], x);
      assert GpuEntryOf(lines[0]) + (GpuEntries(lines[1..]) + GpuEntryOf(x)) == (GpuEntryOf(lines[0]) + GpuEntries(lines[1..])) + GpuEntryOf(x);
    }
  }

  lemma {:induction false} AcceleratorEntriesSnoc(lines: seq<string>, x: string)
    ensures AcceleratorEntries(lines + [x]) == AcceleratorEntries(lines) + AcceleratorEntryOf(x)
    decreases |lines|
  {
    if lines == [] {
      assert lines + [x] == [x];
      assert [x][1..] == [];
    } else {
      assert (lines + [x])[0] == lines[0];
      assert (lines + [x])[1..] == lines[1..] + [x];
      AcceleratorEntriesSnoc(lines[1..], x);
      assert AcceleratorEntryOf(lines[0]) + (AcceleratorEntries(lines[1..]) + AcceleratorEntryOf(x)) == (AcceleratorEntryOf(lines[0]) + AcceleratorEntries(lines[1..])) + AcceleratorEntryOf(x);
    }
  }

  lemma {:induction false} RecognisedCountSnoc(lines: seq<string>, x: string)
    ensures RecognisedCount(lines + [x]) == RecognisedCount(lines) + RecognisedCount([x])
    decreases |lines|
  {
    if lines != [] {
      assert (lines + [x])[1..] == lines[1..] + [x];
      RecognisedCountSnoc(lines[1..], x);
    } else {
      assert lines + [x] == [x];
    }
  }

  /** Once a prefix of the lines has raised, so has the whole list, with the same error. */
  lemma {:induction false} PciReportErrorPersists(lines: seq<string>, k: nat)
    requires k <= |lines|
    requires PciReportOf(lines[..k]).Err?
    ensures PciReportOf(lines) == PciReportOf(lines[..k])
    decreases |lines| - k
  {
    if k < |lines| {
      assert lines[..k + 1][..k] == lines[..k];
      PciReportErrorPersists(lines, k + 1);
    } else {
      assert lines[..k] == lines;
    }
  }

  /** Parsing succeeds exactly when every recognised line has a device name. */
  lemma {:induction false} PciReportSucceeds(lines: seq<string>)
    ensures PciReportOf(lines).Ok? <==> NamesPresent(lines)
    decreases |lines|
  {
    if lines != [] {
      assert lines == lines[..|lines| - 1] + [lines[|lines| - 1]];
      var init, last := lines[..|lines| - 1], lines[|lines| - 1];
      PciReportSucceeds(init);
      if NamesPresent(lines) {
        assert NamesPresent(init) by {
          forall i | 0 <= i < |init| && Classify(init[i]) != Unrecognized
            ensures Occurs(init[i], NAME_SEPARATOR)
          {
            assert init[i] == lines[i];
          }
        }
        DeviceNameAfterFirstSeparator(last);
      } else if NamesPresent(init) {
        DeviceNameAfterFirstSeparator(last);
      }
    }
  }

  /**
   * On success the GPU list and the accelerator list hold the entries of the
   * GPU lines and of the NPU/GNA lines in input order: one entry per
   * recognised line, none for the others.
   */
  lemma {:induction false} PciReportContents(lines: seq<string>)
    requires PciReportOf(lines).Ok?
    ensures PciReportOf(lines).value.gpus == GpuEntries(lines)
    ensures PciReportOf(lines).value.accelerators == AcceleratorEntries(lines)
    ensures |PciReportOf(lines).value.gpus| + |PciReportOf(lines).value.accelerators| == RecognisedCount(lines)
    decreases |lines|
  {
    if lines != [] {
      var init, last := lines[..|lines| - 1], lines[|lines| - 1];
      assert lines == init + [last];
      PciReportContents(init);
      GpuEntriesSnoc(init, last);
      AcceleratorEntriesSnoc(init, last);
      RecognisedCountSnoc(init, last);
      assert [last][1..] == [];
    }
  }

  /** A failure names the first recognised line that lacks a device name. */
  lemma {:induction false} PciReportError(lines: seq<string>)
    requires PciReportOf(lines).Err?
    ensures var k := PciReportOf(lines).error.index;
      k < |lines| && Classify(lines[k]) != Unrecognized && !Occurs(lines[k], NAME_SEPARATOR) &&
      NamesPresent(lines[..k])
    decreases |lines|
  {
    var init, last := lines[..|lines| - 1], lines[|lines| - 1];
    if PciReportOf(init).Err? {
      PciReportError(init);
      var k := PciReportOf(init).error.index;
      assert lines[..k] == init[..k];
    } else {
      PciReportSucceeds(init);
      assert lines[..|lines| - 1] == init;
    }
  }

  /** The GPU test comes first: a GPU line gives one GPU entry and no accelerator entry, whatever else it names. */
  lemma GpuWinsOverAccelerator(line: string)
    requires GpuSignature(line)
    requires Occurs(line, NAME_SEPARATOR)
    ensures PciReportOf([line]) == Ok(PciReport([GpuEntry(DeviceName(line).value)], []))
  {
    assert Contains(line, GPU_CLASS) && Contains(line, GPU_VENDOR);
    assert Classify(line) == Gpu;
    assert Find(line, NAME_SEPARATOR).Some?;
    var name := DeviceName(line).value;
    assert [line][..0] == [];
    assert PciReportOf([line][..0]) == Ok(PciReport([], []));
    assert [] + [GpuEntry(name)] == [GpuEntry(name)];
    assert PciReportOf([line]) == AddDevice(PciReport([], []), line, 0);
  }

  /** No lines, no devices. */
  lemma EmptyListing()
    ensures PciReportOf(GetPciDevices(None)) == Ok(PciReport([], []))
    ensures PciReportOf(GetPciDevices(Some(""))) == Ok(PciReport([], []))
  {
  }

  // ---------------------------------------------------------------------
  // System product
  // ---------------------------------------------------------------------

  const NUC_TYPE := "Intel NUC / Compute Stick"
  const DMIDECODE_ERROR := "dmidecode not found or failed to run. Try running with sudo."

  /** The dictionary `get_system_product_info` returns. */
  datatype ProductInfo =
    | ProductError(error: string)                          // {"Error": ...}
    | SmallFormFactor(typeName: string, model: string)     // {"Type": ..., "Model": ...}
    | Product(typeName: string, board: Option<string>)     // {"Type": ..., "Board": ...}

  /** Decides from the two `dmidecode` results (product name, baseboard name). */
  function SystemProductInfo(productName: Option<string>, boardName: Option<string>): (r: ProductInfo)
    ensures productName.None? ==> r == ProductError(DMIDECODE_ERROR)
    ensures productName.Some? && (Occurs(productName.value, "NUC") || Occurs(productName.value, "Compute Stick")) ==>
      r == SmallFormFactor(NUC_TYPE, productName.value)
    ensures productName.Some? && !Occurs(productName.value, "NUC") && !Occurs(productName.value, "Compute Stick") ==>
      r == Product(productName.value, boardName)
  {
    match productName
    case None => ProductError(DMIDECODE_ERROR)
    case Some(product) =>
      if Contains(product, "NUC") || Contains(product, "Compute Stick") then SmallFormFactor(NUC_TYPE, product)
      else Product(product, boardName)
  }

  /** An empty product name is a product like any other, not an error. */
  lemma EmptyProductIsNotError(boardName: Option<string>)
    ensures SystemProductInfo(Some(""), boardName) == Product("", boardName)
  {
    assert !OccursAt("", "NUC", 0);
    assert !OccursAt("", "Compute Stick", 0);
  }

  // ---------------------------------------------------------------------
  // Compiler flags
  // ---------------------------------------------------------------------

  const METEOR_LAKE := "meteor lake"
  const METEOR_LAKE_ARCH := "-march=meteorlake -mtune=meteorlake"
  const NATIVE_ARCH := "-march=native -mtune=native"
  const OPTIMIZATION_FLAGS := "-O3 -flto -fomit-frame-pointer"
  const VECTORIZATION_FLAGS := "-ftree-vectorize -ftree-loop-vectorize -ftree-slp-vectorize"
  const FLAGS_COMMENT := "Use these flags for performance-critical local builds."

  datatype CompilerFlags = CompilerFlags(architecture: string, optimization: string, vectorization: string, comment: string)

  /** `generate_compiler_flags`, given the CPU record's "Model" entry if it has one. */
  function GenerateCompilerFlags(cpuModel: Option<string>): (f: CompilerFlags)
    ensures f.architecture == METEOR_LAKE_ARCH <==> Occurs(Lower(cpuModel.GetOr("")), METEOR_LAKE)
    ensures f.architecture == NATIVE_ARCH <==> !Occurs(Lower(cpuModel.GetOr("")), METEOR_LAKE)
    ensures f.optimization == OPTIMIZATION_FLAGS && f.vectorization == VECTORIZATION_FLAGS && f.comment == FLAGS_COMMENT
  {
    var model := Lower(cpuModel.GetOr(""));
    var arch := if Contains(model, METEOR_LAKE) then METEOR_LAKE_ARCH else NATIVE_ARCH;
    CompilerFlags(arch, OPTIMIZATION_FLAGS, VECTORIZATION_FLAGS, FLAGS_COMMENT)
  }

  /** A CPU record without a model gets the native flags. */
  lemma MissingModelIsNative()
    ensures GenerateCompilerFlags(None).architecture == NATIVE_ARCH
  {
    assert forall i :: !OccursAt(Lower(""), METEOR_LAKE, i);
  }

  /** The choice ignores letter case: models that lower to the same text get the same flags. */
  lemma {:induction false} CompilerFlagsIgnoreCase(a: string, b: string)
    requires Lower(a) == Lower(b)
    ensures GenerateCompilerFlags(Some(a)) == GenerateCompilerFlags(Some(b))
    ensures GenerateCompilerFlags(Some(a)) == GenerateCompilerFlags(Some(Lower(a)))
  {
    LowerIdempotent(a);
  }

  /** A model naming "Meteor Lake" in its usual capitalisation gets the meteorlake flags. */
  lemma MeteorLakeBrand(model: string, i: nat)
    requires OccursAt(model, "Meteor Lake", i)
    ensures GenerateCompilerFlags(Some(model)).architecture == METEOR_LAKE_ARCH
  {
    var low := Lower(model);
    assert model[i..i + 11] == "Meteor Lake";
    forall k | 0 <= k < 11 ensures low[i + k] == METEOR_LAKE[k] {
      assert model[i + k] == "Meteor Lake"[k];
    }
    assert OccursAt(low, METEOR_LAKE, i);
  }

  // ---------------------------------------------------------------------
  // Core count for parallel builds
  // ---------------------------------------------------------------------

  /**
   * Python's default limit on the number of digits `int()` converts from a
   * string (and `str()` produces from an int); longer inputs raise `ValueError`.
   */
  const INT_MAX_STR_DIGITS := 4300

  /**
   * `int(re.search(r'\d+', cores).group())` for the CPU record's "Cores"
   * entry; no count when the entry is missing, holds no digit (the
   * `AttributeError` the report swallows) or its digit run is too long for
   * `int()` (the `ValueError` it swallows).
   */
  function CoreCount(cores: Option<string>): (r: Option<nat>)
    ensures r.Some? ==> cores.Some? && exists i :: 0 <= i < |cores.value| && IsDigit(cores.value[i])
    ensures cores.Some? && (forall i :: 0 <= i < |cores.value| ==> !IsDigit(cores.value[i])) ==> r.None?
  {
    match cores
    case None => None
    case Some(s) =>
      match FirstDigit(s)
      case None => None
      case Some(start) =>
        var n := DigitRun(s[start..]);
        assert n >= 1;
        IntOfDigits(s[start..][..n])
  }

  /** `int(digits)`: its value, or nothing when Python refuses a string that long. */
  function IntOfDigits(digits: string): Option<nat>
    requires AllDigits(digits)
  {
    if |digits| > INT_MAX_STR_DIGITS then None else Some(DecimalValue(digits))
  }

  lemma FirstDigitAfterPrefix(pre: string, rest: string)
    requires forall i :: 0 <= i < |pre| ==> !IsDigit(pre[i])
    requires |rest| >= 1 && IsDigit(rest[0])
    ensures FirstDigit(pre + rest) == Some(|pre|)
  {
    var s := pre + rest;
    assert IsDigit(s[|pre|]);
  }

  lemma {:induction false} DigitRunOfRun(run: string, post: string)
    requires AllDigits(run)
    requires post == [] || !IsDigit(post[0])
    ensures DigitRun(run + post) == |run|
    decreases |run|
  {
    if run == [] {
      assert run + post == post;
    } else {
      assert (run + post)[1..] == run[1..] + post;
      DigitRunOfRun(run[1..], post);
    }
  }

  /** In such a text the search starts right after the prefix and takes the whole run. */
  lemma DigitSearchFindsRun(pre: string, run: string, post: string)
    requires forall i :: 0 <= i < |pre| ==> !IsDigit(pre[i])
    requires |run| >= 1 && AllDigits(run)
    requires post == [] || !IsDigit(post[0])
    ensures FirstDigit(pre + run + post) == Some(|pre|)
    ensures (pre + run + post)[|pre|..] == run + post
    ensures DigitRun(run + post) == |run| && (run + post)[..|run|] == run
  {
    assert pre + run + post == pre + (run + post);
    FirstDigitAfterPrefix(pre, run + post);
    DigitRunOfRun(run, post);
  }

  /** The count is the value of the first maximal run of digits, whatever surrounds it. */
  lemma CoreCountIsFirstDigitRun(pre: string, run: string, post: string)
    requires forall i :: 0 <= i < |pre| ==> !IsDigit(pre[i])
    requires |run| >= 1 && AllDigits(run)
    requires post == [] || !IsDigit(post[0])
    ensures CoreCount(Some(pre + run + post)) ==
      if |run| <= INT_MAX_STR_DIGITS then Some(DecimalValue(run)) else None
  {
    DigitSearchFindsRun(pre, run, post);
  }

  /** A text that starts with its digits gives their value when the digits are followed by a non-digit. */
  lemma LeadingDigitsCount(digits: string, post: string)
    requires |digits| >= 1 && AllDigits(digits) && |digits| <= INT_MAX_STR_DIGITS
    requires |post| >= 1 && !IsDigit(post[0])
    ensures CoreCount(Some(digits + post)) == Some(DecimalValue(digits))
  {
    var s := digits + post;
    assert IsDigit(s[0]);
    assert FirstDigit(s) == Some(0);
    assert s[0..] == s;
    DigitRunOfRun(digits, post);
    assert s[..|digits|] == digits;
    assert CoreCount(Some(s)) == IntOfDigits(digits);
  }

  /**
   * The "Cores" text the CPU probe writes, `f"{count} physical"`, yields
   * `count` back, for every count that `str()` itself can write out.
   */
  lemma CoreCountRoundTrip(count: nat)
    requires |Decimal(count)| <= INT_MAX_STR_DIGITS
    ensures CoreCount(Some(Decimal(count) + " physical")) == Some(count)
  {
    var post := " physical";
    assert post[0] == ' ';
    LeadingDigitsCount(Decimal(count), post);
    DecimalRoundTrip(count);
  }

  /** A probe without a count ("N/A physical") gives no count. */
  lemma UnknownCoreCount()
    ensures CoreCount(Some("N/A physical")) == None
    ensures CoreCount(None) == None
  {
    var s := "N/A physical";
    assert forall i :: 0 <= i < |s| ==> !IsDigit(s[i]);
  }
}
