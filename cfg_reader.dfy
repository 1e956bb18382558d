/** The reading loop of the configuration reader. */
module CfgReader {
  import opened Wrappers
  import opened CfgParser
  import opened CfgProperties

  /**
   * Reads the file's lines one at a time, counting them from 1, splitting
   * each into fields and skipping blank ones; the first rejected line ends
   * the reading with its error.  `valid` stands for the service package's
   * validity test.
   */
  method ReadCfg(lines: seq<string>, valid: Service -> bool) returns (r: Result<Config, CfgError>)
    ensures r == Parse(lines, valid)
    ensures r.Failure? ==> 1 <= r.error.line <= |lines| && Fields(lines[r.error.line - 1]) != []
    ensures r.Success? ==> GoodServices(r.value.services, valid)
  {
    var st := Start;
    var line := 0;
    while line < |lines|
      invariant 0 <= line <= |lines|
      invariant WellFormed(st, valid)
      invariant ParseFrom(st, lines[line..], line + 1, valid) == ParseFrom(Start, lines, 1, valid)
    {
      ReadStep(st, lines, line, valid);
      line := line + 1;
      var fields := Fields(lines[line - 1]);
      if fields != [] {
        var next := StepLine(st, fields, line, valid);
        if next.Failure? {
          return Failure(next.error);
        }
        StepKeepsWellFormed(st, fields, line, valid);
        st := next.value;
      }
    }
    assert lines[line..] == [];
    return Success(Finish(st));
  }
}
