/**
 What of a paused scan survives being saved (eco/acquisition/scan_tasks.py `save_paused_scan`,
 `resume_scan_call`): numbers of a type that JSON has come back as numbers, all others as text.
 */
module SavedScan {
  import opened Collections
  import opened ScanMesh
  import opened ScanModel
  import opened ScanRuns
  import opened ScanPause

  /** A number of a type that JSON has, or of another type, such as the integers of an array. */
  datatype Number = Plain(value: real) | Foreign(value: real)

  datatype Json = JsonNumber(value: real) | JsonText(text: string)

  /** How a number of another type is written. */
  type Writing = real -> string

  function Saved(n: Number, text: Writing): Json {
    match n
    case Plain(x) => JsonNumber(x)
    case Foreign(x) => JsonText(text(x))
  }

  function SavedAll(ns: seq<Number>, text: Writing): seq<Json> {
    seq(|ns|, i requires 0 <= i < |ns| => Saved(ns[i], text))
  }

  function ValuesOf(ns: seq<Number>): seq<real> {
    seq(|ns|, i requires 0 <= i < |ns| => ns[i].value)
  }

  /** The numbers read back; None if a text is among them. */
  function ReadNumbers(js: seq<Json>): Option<seq<real>> {
    if forall i :: 0 <= i < |js| ==> js[i].JsonNumber?
    then Some(seq(|js|, i requires 0 <= i < |js| => js[i].value))
    else None
  }

  predicate AllPlain(ns: seq<Number>) { forall i :: 0 <= i < |ns| ==> ns[i].Plain? }

  /** Numbers come back if and only if all are of a type that JSON has. */
  lemma NumbersComeBackIff(ns: seq<Number>, text: Writing)
    ensures ReadNumbers(SavedAll(ns, text)) == if AllPlain(ns) then Some(ValuesOf(ns)) else None
  {
    var js := SavedAll(ns, text);
    assert forall i :: 0 <= i < |ns| ==> (js[i].JsonNumber? <==> ns[i].Plain?);
    if AllPlain(ns) {
      assert ReadNumbers(js).Some? && ReadNumbers(js).value == ValuesOf(ns);
    } else {
      var i :| 0 <= i < |ns| && !ns[i].Plain?;
      assert !js[i].JsonNumber?;
    }
  }

  /** The remaining targets and exposures as the scan holds them, and as the file does. */
  datatype Raw = Raw(values: seq<seq<Number>>, pulses: seq<Number>)

  datatype SavedFile = SavedFile(values: seq<seq<Json>>, pulses: seq<Json>)

  function ToFile(raw: Raw, text: Writing): SavedFile {
    SavedFile(seq(|raw.values|, k requires 0 <= k < |raw.values| => SavedAll(raw.values[k], text)), SavedAll(raw.pulses, text))
  }

  function TargetsOf(raw: Raw): seq<Point> {
    seq(|raw.values|, k requires 0 <= k < |raw.values| => ValuesOf(raw.values[k]))
  }

  predicate PlainRaw(raw: Raw) {
    AllPlain(raw.pulses) && forall k :: 0 <= k < |raw.values| ==> AllPlain(raw.values[k])
  }

  /** The scan rebuilt from the file; None if a target or an exposure comes back as text. */
  function ResumedFromFile(file: SavedFile, grid: Option<Grid>, ndim: nat): Option<Result<Scan, string>> {
    if ReadNumbers(file.pulses).None? || exists k :: 0 <= k < |file.values| && ReadNumbers(file.values[k]).None? then None
    else
      var values := seq(|file.values|, k requires 0 <= k < |file.values| =>
                          (assert ReadNumbers(file.values[k]).Some?; ReadNumbers(file.values[k]).value));
      Some(Resumed(Snapshot(values, ReadNumbers(file.pulses).value, grid), ndim))
  }

  /** The scan rebuilt from the file is the one that `ResumedScanCompletesThePlan` is about if and only if
      every remaining target and exposure is of a type that JSON has. */
  lemma ResumedFromFileIff(s: Scan, raw: Raw, text: Writing)
    requires TargetsOf(raw) == s.valuesTodo && ValuesOf(raw.pulses) == s.pulsesTodo
    ensures ResumedFromFile(ToFile(raw, text), s.grid, s.ndim)
            == if PlainRaw(raw) then Some(Resumed(Remaining(s), s.ndim)) else None
  {
    var file := ToFile(raw, text);
    NumbersComeBackIff(raw.pulses, text);
    forall k | 0 <= k < |raw.values|
      ensures ReadNumbers(file.values[k]) == if AllPlain(raw.values[k]) then Some(s.valuesTodo[k]) else None
    {
      NumbersComeBackIff(raw.values[k], text);
      assert s.valuesTodo[k] == TargetsOf(raw)[k] == ValuesOf(raw.values[k]);
    }
    if PlainRaw(raw) {
      var values := seq(|file.values|, k requires 0 <= k < |file.values| =>
                          (assert ReadNumbers(file.values[k]).Some?; ReadNumbers(file.values[k]).value));
      assert values == s.valuesTodo;
    } else if AllPlain(raw.pulses) {
      var k :| 0 <= k < |raw.values| && !AllPlain(raw.values[k]);
      assert ReadNumbers(file.values[k]).None?;
    }
  }
}
