/** NAS SMART helpers: converting NVMe data units to decimal gigabytes, picking the root device
    from the output of the detection script, accepting the `smartctl -j` output, and the rule by
    which `fetch_and_store_smart_json` stores a record. The SSH commands are given as their
    results, and the insertion into the SQLite table as a function returning the new row id. */
module NasUtils {
  import opened Values
  import opened Strings

  // ---------------------------------------------------------------------------------------
  // extract_data_units_gb
  // ---------------------------------------------------------------------------------------

  /** Decimal gigabytes for `units` data units: a data unit of the NVMe SMART / Health
      Information log page (Log Identifier 02h) is 1000 blocks of 512 bytes. */
  function UnitsToGb(units: int): real
  {
    (units * 512) as real / 1_000_000.0
  }

  /** The conversion is the byte count over 10^9, with 512 000 bytes per unit. */
  lemma UnitsToGbIsBytesOverBillion(units: int)
    ensures UnitsToGb(units) == (units * 512_000) as real / 1_000_000_000.0
  {
  }

  /** More units never give fewer gigabytes. */
  lemma UnitsToGbMonotone(a: int, b: int)
    requires a <= b
    ensures UnitsToGb(a) <= UnitsToGb(b)
  {
    assert (a * 512) as real <= (b * 512) as real;
  }

  /** The pair `extract_data_units_gb` returns: `(None, None)` or the two amounts. */
  datatype DataUnitsGb = NoUnits | UnitsGb(readGb: real, writtenGb: real)

  /** `extract_data_units_gb(smart_dict)`: `(None, None)` when the NVMe health log is missing or
      empty, when a counter is missing, or when a counter is not a number (the `TypeError` is
      caught); otherwise both counters converted. A value without `get` (the output is not a
      dict, or the health log is a non-empty non-dict) raises `AttributeError`, which is not
      caught. */
  function ExtractDataUnitsGb(smartDict: Json): (r: Result<DataUnitsGb>)
    ensures !smartDict.Obj? ==> r == Err(AttributeError(TypeName(smartDict), "get"))
    ensures smartDict.Obj? ==>
              var log := Get(smartDict.fields, "nvme_smart_health_information_log");
              && (!Truthy(log) ==> r == Ok(NoUnits))
              && (Truthy(log) && !log.Obj? ==> r == Err(AttributeError(TypeName(log), "get")))
              && (Truthy(log) && log.Obj? ==>
                    // a counter that is missing, `null` or not a number gives `(None, None)`
                    var read, written := AsNumber(Get(log.fields, "data_units_read")),
                                         AsNumber(Get(log.fields, "data_units_written"));
                    r == if read.Some? && written.Some? then Ok(UnitsGb(UnitsToGb(read.value), UnitsToGb(written.value)))
                         else Ok(NoUnits))
  {
    if !smartDict.Obj? then Err(AttributeError(TypeName(smartDict), "get"))
    else
      var healthLog := Get(smartDict.fields, "nvme_smart_health_information_log");
      if !Truthy(healthLog) then Ok(NoUnits)
      else if !healthLog.Obj? then Err(AttributeError(TypeName(healthLog), "get"))
      else
        var readUnits := Get(healthLog.fields, "data_units_read");
        var writeUnits := Get(healthLog.fields, "data_units_written");
        if readUnits == Null || writeUnits == Null then Ok(NoUnits)
        else
          match (AsNumber(readUnits), AsNumber(writeUnits))
          case (Some(read), Some(written)) => Ok(UnitsGb(UnitsToGb(read), UnitsToGb(written)))
          case _ => Ok(NoUnits)
  }

  // ---------------------------------------------------------------------------------------
  // get_nas_smart_as_dict
  // ---------------------------------------------------------------------------------------

  /** `[l.strip() for l in lines if l.strip()]`. */
  function StrippedNonBlank(lines: seq<string>): (r: seq<string>)
    ensures |r| <= |lines|
  {
    if lines == [] then []
    else
      var n := |lines| - 1;
      var l := Strip(lines[n]);
      StrippedNonBlank(lines[..n]) + if l != "" then [l] else []
  }

  /** The comprehension maps and filters piecewise: the lines of `a + b` give those of `a`
      followed by those of `b`, so the kept lines stay in input order and repeats are kept. */
  lemma {:induction false} StrippedNonBlankConcat(a: seq<string>, b: seq<string>)
    ensures StrippedNonBlank(a + b) == StrippedNonBlank(a) + StrippedNonBlank(b)
  {
    if b == [] {
      assert a + b == a;
    } else {
      var n := |b| - 1;
      assert (a + b)[..|a + b| - 1] == a + b[..n];
      assert (a + b)[|a + b| - 1] == b[n];
      StrippedNonBlankConcat(a, b[..n]);
    }
  }

  /** One line gives its stripped text when that is not empty, and nothing otherwise. */
  lemma StrippedNonBlankOne(l: string)
    ensures StrippedNonBlank([l]) == if Strip(l) != "" then [Strip(l)] else []
  {
    assert [l][..0] == [];
  }

  /** Every line whose stripped text is not empty contributes that text. */
  lemma {:induction false} StrippedNonBlankComplete(lines: seq<string>, k: nat)
    requires k < |lines| && Strip(lines[k]) != ""
    ensures Strip(lines[k]) in StrippedNonBlank(lines)
  {
    var n := |lines| - 1;
    var front := StrippedNonBlank(lines[..n]);
    if k < n {
      assert lines[..n][k] == lines[k];
      StrippedNonBlankComplete(lines[..n], k);
      var j :| 0 <= j < |front| && front[j] == Strip(lines[k]);
      assert StrippedNonBlank(lines)[j] == front[j];
    } else {
      assert StrippedNonBlank(lines)[|front|] == Strip(lines[k]);
    }
  }

  /** Every kept text is the stripped text of some line, so it is not empty and has no
      surrounding whitespace left. */
  lemma {:induction false} StrippedNonBlankSound(lines: seq<string>, t: string)
    requires t in StrippedNonBlank(lines)
    ensures exists k :: 0 <= k < |lines| && Strip(lines[k]) == t
    ensures t != "" && Strip(t) == t
  {
    var n := |lines| - 1;
    if t in StrippedNonBlank(lines[..n]) {
      StrippedNonBlankSound(lines[..n], t);
      var k :| 0 <= k < n && Strip(lines[..n][k]) == t;
      assert lines[k] == lines[..n][k];
    } else {
      assert Strip(lines[n]) == t;
      StripIdempotent(lines[n]);
    }
  }

  /** The last line that starts with `/dev/`. */
  function LastDevLine(lines: seq<string>): Option<string>
  {
    if lines == [] then None
    else if StartsWith(lines[|lines| - 1], "/dev/") then Some(lines[|lines| - 1])
    else LastDevLine(lines[..|lines| - 1])
  }

  /** `lines[i]` starts with `/dev/` and no later line does. */
  predicate LastDevAt(lines: seq<string>, i: int)
  {
    0 <= i < |lines| && StartsWith(lines[i], "/dev/")
    && forall j :: i < j < |lines| ==> !StartsWith(lines[j], "/dev/")
  }

  /** `LastDevLine` finds a `/dev/` line exactly when there is one, and no later line is one. */
  lemma {:induction false} LastDevLineIsLast(lines: seq<string>)
    ensures LastDevLine(lines).None? <==> forall k :: 0 <= k < |lines| ==> !StartsWith(lines[k], "/dev/")
    ensures LastDevLine(lines).Some? ==> exists i :: LastDevAt(lines, i) && lines[i] == LastDevLine(lines).value
  {
    if lines != [] {
      var n := |lines| - 1;
      var front := lines[..n];
      if StartsWith(lines[n], "/dev/") {
        assert LastDevAt(lines, n);
      } else {
        LastDevLineIsLast(front);
        assert LastDevLine(lines) == LastDevLine(front);
        assert forall k :: 0 <= k < n ==> front[k] == lines[k];
        if LastDevLine(front).Some? {
          var i :| LastDevAt(front, i) && front[i] == LastDevLine(front).value;
          assert LastDevAt(lines, i);
        }
      }
    }
  }

  /** The device-detection part of `get_nas_smart_as_dict`: the stripped, non-blank output lines
      scanned from the last, stopping at the first that starts with `/dev/`. */
  method SelectRootDevice(outputLines: seq<string>) returns (remoteDisk: Option<string>)
    ensures remoteDisk == LastDevLine(StrippedNonBlank(outputLines))
  {
    var lines := StrippedNonBlank(outputLines);
    remoteDisk := ScanFromLast(lines);
  }

  /** `for line in reversed(lines): if line.startswith("/dev/"): remote_disk = line; break`. */
  method ScanFromLast(lines: seq<string>) returns (remoteDisk: Option<string>)
    ensures remoteDisk == LastDevLine(lines)
  {
    remoteDisk := None;
    var k := |lines|;
    assert lines[..k] == lines;
    while k > 0
      invariant 0 <= k <= |lines|
      invariant LastDevLine(lines) == LastDevLine(lines[..k])
      decreases k
    {
      var line := lines[k - 1];
      LastDevLineStep(lines, k);
      if StartsWith(line, "/dev/") {
        remoteDisk := Some(line);
        return;
      }
      k := k - 1;
    }
  }

  lemma LastDevLineStep(lines: seq<string>, k: nat)
    requires 0 < k <= |lines|
    ensures LastDevLine(lines[..k]) ==
              if StartsWith(lines[k - 1], "/dev/") then Some(lines[k - 1]) else LastDevLine(lines[..k - 1])
  {
    assert lines[..k][..k - 1] == lines[..k - 1];
  }

  /** A remote command's result: its exit code and standard output (as lines for the detection
      script, parsed as JSON for `smartctl -j`, `None` when it is not JSON). */
  datatype DetectResult = DetectResult(returnCode: int, stdoutLines: seq<string>)
  datatype SmartResult = SmartResult(returnCode: int, parsed: Option<Json>)

  /** `"smartctl_version" in smart_dict or "device" in smart_dict`: a key of a dict, an element of
      a list, a substring of a string; `in` on anything else raises `TypeError`. */
  function IsSmartOutput(j: Json): (r: Result<bool>)
    ensures j.Obj? ==> r == Ok("smartctl_version" in j.fields || "device" in j.fields)
    ensures r.Ok? && r.value ==> Truthy(j)
    ensures j.Null? || j.Int? || j.Bool? ==> r.Err?
  {
    match j
    case Obj(m) => Ok("smartctl_version" in m || "device" in m)
    case Arr(items) => Ok(Str("smartctl_version") in items || Str("device") in items)
    case Str(s) =>
      if Contains(s, "smartctl_version") then ContainsNonEmpty(s, "smartctl_version"); Ok(true)
      else if Contains(s, "device") then ContainsNonEmpty(s, "device"); Ok(true)
      else Ok(false)
    case _ => Err(TypeError)
  }

  lemma {:induction false} ContainsNonEmpty(s: string, sub: string)
    requires sub != [] && Contains(s, sub)
    ensures s != []
  {
  }

  /** `get_nas_smart_as_dict` as a rule: the device and the parsed output when both commands
      succeed, a `/dev/` line is found and the output is accepted; `(None, None)` otherwise,
      including every exception (`detect` is the detection command's result or the exception it
      raised, `smartctl(device)` the same for the `smartctl -j -a` command on `device`). */
  function NasSmart(detect: Result<DetectResult>, smartctl: string -> Result<SmartResult>): (r: (Option<string>, Option<Json>))
    ensures r.0.Some? <==> r.1.Some?
    ensures detect.Err? || detect.value.returnCode != 0 ==> r == (None, None)
    ensures r.0.Some? ==>
              && detect.Ok? && detect.value.returnCode == 0
              && r.0 == LastDevLine(StrippedNonBlank(detect.value.stdoutLines))
              && smartctl(r.0.value) == Ok(SmartResult(0, r.1))
              && IsSmartOutput(r.1.value) == Ok(true)
    ensures detect.Ok? && detect.value.returnCode == 0 ==>
              var device := LastDevLine(StrippedNonBlank(detect.value.stdoutLines));
              device.Some? && smartctl(device.value).Ok? && smartctl(device.value).value.returnCode == 0
              && smartctl(device.value).value.parsed.Some?
              && IsSmartOutput(smartctl(device.value).value.parsed.value) == Ok(true)
              ==> r == (device, smartctl(device.value).value.parsed)
  {
    if detect.Err? || detect.value.returnCode != 0 then (None, None)
    else
      match LastDevLine(StrippedNonBlank(detect.value.stdoutLines))
      case None => (None, None)
      case Some(device) =>
        match smartctl(device)
        case Err(_) => (None, None)
        case Ok(result) =>
          if result.returnCode != 0 || result.parsed.None? then (None, None)
          else if IsSmartOutput(result.parsed.value) == Ok(true) then (Some(device), result.parsed)
          else (None, None)
  }

  /** `get_nas_smart_as_dict(nas_ip, nas_user, nas_password)`. */
  method GetNasSmartAsDict(detect: Result<DetectResult>, smartctl: string -> Result<SmartResult>)
    returns (device: Option<string>, smartDict: Option<Json>)
    ensures (device, smartDict) == NasSmart(detect, smartctl)
  {
    if detect.Err? || detect.value.returnCode != 0 {
      return None, None;
    }
    var remoteDisk := SelectRootDevice(detect.value.stdoutLines);
    if remoteDisk.None? {
      return None, None;
    }
    var smartResult := smartctl(remoteDisk.value);
    if smartResult.Err? || smartResult.value.returnCode != 0 || smartResult.value.parsed.None? {
      return None, None;
    }
    var parsed := smartResult.value.parsed.value;
    var accepted := IsSmartOutput(parsed);
    if accepted == Ok(true) {
      return remoteDisk, Some(parsed);
    }
    return None, None;
  }

  /** The accepted output always names a `/dev/` device, and only accepted output is returned. */
  lemma NasSmartDevice(detect: Result<DetectResult>, smartctl: string -> Result<SmartResult>)
    ensures var r := NasSmart(detect, smartctl);
            r.0.Some? ==> StartsWith(r.0.value, "/dev/") && Truthy(r.1.value)
  {
    var r := NasSmart(detect, smartctl);
    if r.0.Some? {
      var lines := StrippedNonBlank(detect.value.stdoutLines);
      LastDevLineIsLast(lines);
      var i :| LastDevAt(lines, i) && lines[i] == r.0.value;
    }
  }

  // ---------------------------------------------------------------------------------------
  // fetch_and_store_smart_json
  // ---------------------------------------------------------------------------------------

  /** `fetch_and_store_smart_json`: the id returned by `save_smart_dict_to_db` when a device and a
      non-empty output were obtained, `None` otherwise. `save(device, smartDict)` stands for the
      insertion (or the exception it raised). */
  function FetchAndStoreSmartJson(detect: Result<DetectResult>, smartctl: string -> Result<SmartResult>,
                                  save: (string, Json) -> Result<nat>): (r: Result<Option<nat>>)
    ensures NasSmart(detect, smartctl).0.None? ==> r == Ok(None)
    ensures NasSmart(detect, smartctl).0.Some? ==>
              var (device, smartDict) := NasSmart(detect, smartctl);
              r == (match save(device.value, smartDict.value)
                    case Ok(id) => Ok(Some(id))
                    case Err(e) => Err(e))
  {
    var (device, smartDict) := NasSmart(detect, smartctl);
    NasSmartDevice(detect, smartctl);
    if device.Some? && device.value != "" && smartDict.Some? && Truthy(smartDict.value) then
      match save(device.value, smartDict.value)
      case Ok(id) => Ok(Some(id))
      case Err(e) => Err(e)
    else Ok(None)
  }
}
