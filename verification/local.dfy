/** The requirement check shared by the extension and layer checks, and
    the VK_CALL rule: a failing driver call is logged and becomes a
    runtime_error. */
module Requirements {

  import opened Vk
  import opened Logging

  /** VK_CALL(call, logger, message): nothing happens on VK_SUCCESS;
      otherwise an Error line naming the call and the result is logged and
      runtime_error(message) is thrown. `resultName` is the text name_of
      gives the result, which is not part of this model. */
  method VkCall(res: VkResult, logger: Logger, call: string, resultName: string, message: string)
    returns (o: Outcome, emitted: seq<Record>)
    modifies logger
    ensures o.Pass? <==> res == VK_SUCCESS
    ensures o.Fail? ==> o.error == RuntimeError(message)
    ensures res == VK_SUCCESS ==> emitted == []
    ensures res != VK_SUCCESS ==> emitted == [Record(Logging.Error, call + ": " + resultName)]
    ensures logger.forwarded == old(logger.forwarded) + Forwarded(logger.threshold, emitted)
  {
    if res == VK_SUCCESS {
      o, emitted := Pass, [];
    } else {
      o, emitted := Fail(RuntimeError(message)), [Record(Logging.Error, call + ": " + resultName)];
    }
    LogEach(logger, emitted);
  }

  /** The reference meaning of the scan's marks: an available name is
      marked found exactly when it is required and has not occurred
      earlier in the available list. */
  predicate MarkedFound(required: seq<string>, available: seq<string>, i: int)
    requires 0 <= i < |available|
  {
    available[i] in required && available[i] !in available[..i]
  }

  /** One line of the "Found" report. */
  function FoundLine(marked: bool, name: string): (line: string)
    ensures |line| == 6 + |name|
    ensures line[..6] == (if marked then "\n [X] " else "\n [ ] ") && line[6..] == name
  {
    (if marked then "\n [X] " else "\n [ ] ") + name
  }

  /** The report lines for the available names, in order. */
  function FoundLines(available: seq<string>, marks: seq<bool>): string
    requires |marks| == |available|
  {
    if available == [] then ""
    else FoundLines(available[..|available| - 1], marks[..|marks| - 1])
         + FoundLine(marks[|marks| - 1], available[|available| - 1])
  }

  /** The lines listing the missing names. */
  function MissingLines(missing: seq<string>): string
  {
    if missing == [] then ""
    else MissingLines(missing[..|missing| - 1]) + "\n [-] " + missing[|missing| - 1]
  }

  /** The scan over the available names: each is marked [X] when it is
      still in `remaining`, which it then leaves. */
  method ScanAvailable(required: seq<string>, available: seq<string>)
    returns (remaining: set<string>, marks: seq<bool>, lines: string)
    ensures forall x :: x in remaining <==> x in required && x !in available
    ensures |marks| == |available|
    ensures forall i :: 0 <= i < |available| ==> (marks[i] <==> MarkedFound(required, available, i))
    ensures lines == FoundLines(available, marks)
  {
    remaining := set r | r in required;
    marks := [];
    lines := "";
    for i := 0 to |available|
      invariant |marks| == i
      invariant forall x :: x in remaining <==> x in required && x !in available[..i]
      invariant forall j :: 0 <= j < i ==> (marks[j] <==> MarkedFound(required, available, j))
      invariant lines == FoundLines(available[..i], marks)
    {
      var name := available[i];
      assert available[..i + 1] == available[..i] + [name];
      assert available[..i + 1][..i] == available[..i];
      var hit := name in remaining;
      marks := marks + [hit];
      assert marks[..i] == marks[..|marks| - 1];
      lines := lines + FoundLine(hit, name);
      if hit {
        remaining := remaining - {name};
      }
    }
    assert available[..|available|] == available;
  }

  /** Lists the names of a set once each, in an unspecified order. */
  method ListMissing(remaining: set<string>) returns (missing: seq<string>, lines: string)
    ensures forall x :: x in missing <==> x in remaining
    ensures forall i, j :: 0 <= i < j < |missing| ==> missing[i] != missing[j]
    ensures lines == MissingLines(missing)
  {
    missing := [];
    lines := "";
    var left := remaining;
    while left != {}
      invariant left <= remaining
      invariant forall x :: x in missing <==> x in remaining && x !in left
      invariant forall i, j :: 0 <= i < j < |missing| ==> missing[i] != missing[j]
      invariant lines == MissingLines(missing)
      decreases |left|
    {
      var name :| name in left;
      assert (missing + [name])[..|missing|] == missing;
      missing := missing + [name];
      lines := lines + "\n [-] " + name;
      left := left - {name};
    }
  }

  /** evaluate_required_items(logger, required, available, ref, label),
      with `available` already projected on the `ref` name field. `marks`
      are the [X]/[ ] marks of the trace report and `missing` the names the
      error report lists, in the unordered set's unspecified order. */
  method EvaluateRequiredItems(logger: Logger, required: seq<string>, available: seq<string>, kind: string)
    returns (ok: bool, marks: seq<bool>, missing: seq<string>, emitted: seq<Record>)
    modifies logger
    ensures ok <==> forall r :: r in required ==> r in available
    ensures |marks| == |available|
    ensures forall i :: 0 <= i < |available| ==> (marks[i] <==> MarkedFound(required, available, i))
    ensures forall x :: x in missing <==> x in required && x !in available
    ensures forall i, j :: 0 <= i < j < |missing| ==> missing[i] != missing[j]
    ensures ok <==> missing == []
    ensures emitted == [Record(Trace, "Found " + kind + ":" + FoundLines(available, marks))]
                       + (if ok then [] else [Record(Logging.Error, "Missing " + kind + ":" + MissingLines(missing))])
    ensures logger.forwarded == old(logger.forwarded) + Forwarded(logger.threshold, emitted)
  {
    var remaining, foundLines;
    remaining, marks, foundLines := ScanAvailable(required, available);
    emitted := [Record(Trace, "Found " + kind + ":" + foundLines)];
    ok := remaining == {};
    if ok {
      missing := [];
    } else {
      var x :| x in remaining;
      var missingLines;
      missing, missingLines := ListMissing(remaining);
      assert x in missing;
      emitted := emitted + [Record(Logging.Error, "Missing " + kind + ":" + missingLines)];
    }
    LogEach(logger, emitted);
  }
}
