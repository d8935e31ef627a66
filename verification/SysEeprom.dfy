/** Reading serial, model and revision from the output of the syseeprom command, line by line. */
module SysEeprom {
  import opened Results
  import opened Sequences

  /** What the four patterns capture from a line, trimmed; the patterns themselves are not part of this model. */
  datatype Line = Line(serial: Option<string>, product: Option<string>, revision: Option<string>,
                       device: Option<string>)

  type Values = map<string, string>

  function Get(values: Values, key: string): string {
    if key in values then values[key] else ""
  }

  function SerialOf(l: Line): Option<string> { l.serial }
  function ProductOf(l: Line): Option<string> { l.product }

  /** The last capture of a pattern, empty if there is none. */
  function LastCapture(capture: Line -> Option<string>, lines: seq<Line>): string {
    if lines == [] then ""
    else capture(lines[|lines| - 1]).GetOr(LastCapture(capture, lines[..|lines| - 1]))
  }

  /** The revision after the lines: a label revision replaces it, a device version only fills it while it is empty. */
  function RevisionOf(lines: seq<Line>): string {
    if lines == [] then ""
    else
      var l := lines[|lines| - 1];
      var r := l.revision.GetOr(RevisionOf(lines[..|lines| - 1]));
      if r == "" then l.device.GetOr(r) else r
  }

  method ParseSysEeprom(lines: seq<Line>) returns (values: Values)
    ensures Get(values, "serial") == LastCapture(SerialOf, lines)
    ensures Get(values, "model") == LastCapture(ProductOf, lines)
    ensures Get(values, "revision") == RevisionOf(lines)
  {
    values := map[];
    for i := 0 to |lines|
      invariant Get(values, "serial") == LastCapture(SerialOf, lines[..i])
      invariant Get(values, "model") == LastCapture(ProductOf, lines[..i])
      invariant Get(values, "revision") == RevisionOf(lines[..i])
    {
      var l := lines[i];
      TakeSnoc(lines, i);
      if l.serial.Some? {
        values := values["serial" := l.serial.value];
      }
      if l.product.Some? {
        values := values["model" := l.product.value];
      }
      if l.revision.Some? {
        values := values["revision" := l.revision.value];
      }
      if Get(values, "revision") == "" {
        if l.device.Some? {
          values := values["revision" := l.device.value];
        }
      }
    }
    assert lines[..|lines|] == lines;
  }

  /** The first non-empty device version. */
  function FirstDevice(lines: seq<Line>): string {
    if lines == [] then ""
    else if lines[0].device.GetOr("") != "" then lines[0].device.value
    else FirstDevice(lines[1..])
  }

  predicate Unlabelled(lines: seq<Line>) {
    forall i :: 0 <= i < |lines| ==> lines[i].revision.None?
  }

  lemma {:induction false} FirstDeviceSnoc(lines: seq<Line>, l: Line)
    ensures FirstDevice(lines + [l]) == if FirstDevice(lines) != "" then FirstDevice(lines) else l.device.GetOr("")
  {
    if lines != [] {
      assert (lines + [l])[1..] == lines[1..] + [l];
      FirstDeviceSnoc(lines[1..], l);
    }
  }

  /** Without any label revision, the revision is the first non-empty device version. */
  lemma {:induction false} DeviceVersionFallback(lines: seq<Line>)
    requires Unlabelled(lines)
    ensures RevisionOf(lines) == FirstDevice(lines)
  {
    if lines != [] {
      var front, l := lines[..|lines| - 1], lines[|lines| - 1];
      DeviceVersionFallback(front);
      assert lines == front + [l];
      FirstDeviceSnoc(front, l);
    }
  }

  /**
   * Otherwise the last label revision decides: it wins if non-empty, else the first device version from its line on.
   */
  lemma {:induction false} LastLabelRevision(before: seq<Line>, l: Line, rest: seq<Line>)
    requires l.revision.Some? && Unlabelled(rest)
    ensures RevisionOf(before + [l] + rest)
         == if l.revision.value != "" then l.revision.value else FirstDevice([l] + rest)
  {
    var lines := before + [l] + rest;
    if rest == [] {
      assert lines[..|lines| - 1] == before;
      assert [l] + rest == [l] && [l][1..] == [];
    } else {
      var front, last := rest[..|rest| - 1], rest[|rest| - 1];
      assert lines[..|lines| - 1] == before + [l] + front;
      LastLabelRevision(before, l, front);
      assert [l] + rest == [l] + front + [last];
      FirstDeviceSnoc([l] + front, last);
    }
  }
}
