/** What the example tool promises, stated over the functions of module Tool
    that the methods of `ExampleTool` are proved to compute. */
module ToolProperties {
  import opened Json
  import opened Python
  import opened Tool

  // ---------------------------------------------------------------------------
  // Configuration
  // ---------------------------------------------------------------------------

  lemma DefaultConfigKeys()
    ensures Keys(DefaultConfig()) == ["name", "version", "settings"]
    ensures DistinctKeys(DefaultConfig())
  {
    var d := DefaultConfig();
    assert d[1..][1..][1..] == [];
    assert Keys(d) == [d[0].0] + Keys(d[1..]);
    assert Keys(d[1..]) == [d[1].0] + Keys(d[1..][1..]);
  }

  /** The merge of `_load_config`: without a usable user file the result is the
      defaults; otherwise every key of the user's dict maps to the user's value
      and every other key keeps its default. */
  lemma ConfigMerge(user: Option<Fields>, k: string)
    requires user.Some? ==> DistinctKeys(user.value)
    ensures user.None? ==> LoadedConfig(user) == DefaultConfig()
    ensures user.Some? && k in Keys(user.value) ==> Lookup(LoadedConfig(user), k) == Lookup(user.value, k)
    ensures user.None? || k !in Keys(user.value) ==> Lookup(LoadedConfig(user), k) == Lookup(DefaultConfig(), k)
  {
    if user.Some? {
      UpdateLookup(DefaultConfig(), user.value, k);
    }
  }

  /** The merged configuration keeps the default keys first and in their order,
      holds exactly the default and the user keys, and is still a dict. */
  lemma ConfigKeys(u: Fields)
    ensures var c := LoadedConfig(Some(u));
      && |c| >= 3
      && Keys(c)[..3] == ["name", "version", "settings"]
      && (forall k :: k in Keys(c) <==> k in Keys(DefaultConfig()) || k in Keys(u))
      && DistinctKeys(c)
  {
    DefaultConfigKeys();
    UpdateKeepsOrder(DefaultConfig(), u);
    forall k ensures k in Keys(LoadedConfig(Some(u))) <==> k in Keys(DefaultConfig()) || k in Keys(u) {
      UpdateHasKey(DefaultConfig(), u, k);
    }
    UpdateDistinct(DefaultConfig(), u);
  }

  /** The merge is shallow: a user "settings" replaces the default settings
      dict as a whole, so no default setting survives under it unless the
      user's settings repeat it. */
  lemma ConfigSettingsShallow(u: Fields)
    requires DistinctKeys(u)
    requires "settings" in Keys(u)
    ensures Lookup(LoadedConfig(Some(u)), "settings") == Lookup(u, "settings")
  {
    ConfigMerge(Some(u), "settings");
  }

  // ---------------------------------------------------------------------------
  // Validation
  // ---------------------------------------------------------------------------

  /** On a dict, `validate_input` never raises. It passes exactly when "type"
      and "data" are keys and `data["data"]` is a dict or a list, and then hands
      on `data["data"]`. A missing "type" is reported before a missing "data". */
  lemma ValidateObject(fs: Fields)
    ensures InputCheck(Obj(fs)).Ok?
    ensures InputCheck(Obj(fs)).value.Passed? <==>
      "type" in Keys(fs) && "data" in Keys(fs) && (Lookup(fs, "data").value.Obj? || Lookup(fs, "data").value.Arr?)
    ensures InputCheck(Obj(fs)).value.Passed? ==> InputCheck(Obj(fs)).value.payload == Lookup(fs, "data").value
    ensures "type" !in Keys(fs) ==> InputCheck(Obj(fs)) == Ok(MissingField("type"))
    ensures "type" in Keys(fs) && "data" !in Keys(fs) ==> InputCheck(Obj(fs)) == Ok(MissingField("data"))
  {
    var v := Obj(fs);
    assert RequiredFields[1..] == ["data"];
    assert ["data"][1..] == [];
    assert FirstMissing(v, ["data"]) == if "data" in Keys(fs) then Ok(None) else Ok(Some("data"));
    assert FirstMissing(v, RequiredFields) == if "type" in Keys(fs) then FirstMissing(v, ["data"]) else Ok(Some("type"));
  }

  /** `validate_input` passes only on a dict: on None, a bool or an int the first
      `in` test raises; on a string or a list it either finds a field missing or
      raises when it indexes the value with "data". */
  lemma ValidatePassesOnlyObjects(v: Value)
    ensures InputCheck(v).Ok? && InputCheck(v).value.Passed? ==> v.Obj?
    ensures (v.Null? || v.Bool? || v.Int?) ==>
      InputCheck(v) == Raised(TypeError("argument of type '" + TypeName(v) + "' is not iterable"))
  {
    assert RequiredFields[1..] == ["data"];
    assert RequiredFields[1..][1..] == [];
  }

  // ---------------------------------------------------------------------------
  // Processing
  // ---------------------------------------------------------------------------

  /** `process_data` rejects anything that is not a dict. */
  lemma ProcessRejectsNonObject(config: Config, data: Value)
    requires !data.Obj?
    ensures Processed(config, data) == Raised(ValueError("Input data must be a dictionary"))
  {
  }

  /** On a dict, `process_data` succeeds unless an "items" value has no length,
      and then raises the TypeError of `len`. */
  // No induction: Dafny's automatic induction on `fs` only slows this proof down.
  lemma {:induction false} ProcessShape(config: Config, fs: Fields)
    ensures Processed(config, Obj(fs)).Ok? <==> ("items" !in Keys(fs) || Len(Lookup(fs, "items").value).Ok?)
    ensures Processed(config, Obj(fs)).Raised? ==>
      Processed(config, Obj(fs)).exc == TypeError("object of type '" + TypeName(Lookup(fs, "items").value) + "' has no len()")
  {
  }

  /** A result of `process_data` has the four fixed keys in order, followed by
      "item_count" and "processed_items" exactly when the input has "items". */
  lemma ProcessKeys(config: Config, fs: Fields)
    requires Processed(config, Obj(fs)).Ok?
    ensures Keys(Processed(config, Obj(fs)).value) ==
      ["status", "input_keys", "processed_at", "tool_info"]
      + (if "items" in Keys(fs) then ["item_count", "processed_items"] else [])
  {
    assert Processed(config, Obj(fs)).value == BaseResult(config, fs) + ItemEntries(fs);
    BaseResultKeys(config, fs);
    KeysConcat(BaseResult(config, fs), ItemEntries(fs));
  }

  /** `input_keys` lists the keys of the input dict in insertion order, so a
      string is in it exactly when it is a key of the input. */
  lemma KeyListKeys(fs: Fields)
    ensures |KeyList(fs)| == |Keys(fs)|
    ensures forall i :: 0 <= i < |fs| ==> KeyList(fs)[i] == Str(Keys(fs)[i])
    ensures forall k :: Str(k) in KeyList(fs) <==> k in Keys(fs)
  {
    forall k ensures Str(k) in KeyList(fs) <==> k in Keys(fs) {
      if Str(k) in KeyList(fs) {
        var i :| 0 <= i < |fs| && KeyList(fs)[i] == Str(k);
        assert Keys(fs)[i] == k;
      }
      if k in Keys(fs) {
        var i :| 0 <= i < |fs| && Keys(fs)[i] == k;
        assert KeyList(fs)[i] == Str(k);
      }
    }
  }

  /** A result of `process_data` on a dict has status "success", lists the
      input's keys in insertion order, carries the timestamp, and takes name
      and version from the configuration. */
  lemma ProcessFields(config: Config, fs: Fields)
    requires Processed(config, Obj(fs)).Ok?
    ensures var r := Processed(config, Obj(fs)).value;
      && Lookup(r, "status") == Some(Str("success"))
      && Lookup(r, "input_keys") == Some(Arr(KeyList(fs)))
      && Lookup(r, "processed_at") == Some(Str(ProcessedAt))
      && Lookup(r, "tool_info") == Some(Obj([("name", Lookup(config, "name").value), ("version", Lookup(config, "version").value)]))
  {
    var b := BaseResult(config, fs);
    assert Processed(config, Obj(fs)).value == b + ItemEntries(fs);
    BaseResultKeys(config, fs);
    BaseResultEntries(config, fs);
    LookupConcat(b, ItemEntries(fs), "status");
    LookupConcat(b, ItemEntries(fs), "input_keys");
    LookupConcat(b, ItemEntries(fs), "processed_at");
    LookupConcat(b, ItemEntries(fs), "tool_info");
  }

  /** When the input has "items", `item_count` is its length and
      `processed_items` is the list `ProcessedItems` describes: that many
      entries `{"id": i, "processed": true}`, ids 0, 1, ... in order. */
  // No induction: Dafny's automatic induction on `fs` only slows this proof down.
  lemma {:induction false} ProcessItems(config: Config, fs: Fields)
    requires "items" in Keys(fs)
    requires Len(Lookup(fs, "items").value).Ok?
    ensures var n := Len(Lookup(fs, "items").value).value;
      var r := Processed(config, Obj(fs)).value;
      && Lookup(r, "item_count") == Some(Int(n))
      && Lookup(r, "processed_items") == Some(Arr(ProcessedItems(n)))
  {
    var b := BaseResult(config, fs);
    var e := ItemEntries(fs);
    var n := Len(Lookup(fs, "items").value).value;
    assert e == [("item_count", Int(n)), ("processed_items", Arr(ProcessedItems(n)))];
    assert Processed(config, Obj(fs)).value == b + e;
    BaseResultKeys(config, fs);
    LookupConcat(b, e, "item_count");
    LookupConcat(b, e, "processed_items");
    assert e[1..] == [("processed_items", Arr(ProcessedItems(n)))];
  }

  // ---------------------------------------------------------------------------
  // The status envelope and the exit code
  // ---------------------------------------------------------------------------

  /** Whether `run(input)` reports success: the input is a dict with "type" and
      "data", `input["data"]` is a dict, and its "items", if any, has a length. */
  predicate Succeeds(input: Value)
  {
    && input.Obj?
    && "type" in Keys(input.fields)
    && "data" in Keys(input.fields)
    && var d := Lookup(input.fields, "data").value;
    && d.Obj?
    && ("items" in Keys(d.fields) ==> Len(Lookup(d.fields, "items").value).Ok?)
  }

  /** When validation fails, `run` returns the fixed failure envelope and does
      not process anything. */
  lemma RunValidationFailure(config: Config, fs: Fields)
    requires !("type" in Keys(fs) && "data" in Keys(fs) && (Lookup(fs, "data").value.Obj? || Lookup(fs, "data").value.Arr?))
    ensures RunResult(config, Obj(fs)) == [("status", Str("error")), ("message", Str("Input validation failed"))]
  {
    ValidateObject(fs);
  }

  /** When validation passes and `input["data"]` is a dict whose "items" has
      no length, `len` raises inside `process_data` and `run` returns the
      TypeError envelope with CPython's message. */
  lemma RunItemsWithoutLen(config: Config, fs: Fields)
    requires "type" in Keys(fs) && "data" in Keys(fs)
    requires Lookup(fs, "data").value.Obj?
    requires "items" in Keys(Lookup(fs, "data").value.fields)
    requires Len(Lookup(Lookup(fs, "data").value.fields, "items").value).Raised?
    ensures var items := Lookup(Lookup(fs, "data").value.fields, "items").value;
      RunResult(config, Obj(fs)) ==
        [("status", Str("error")), ("message", Str("object of type '" + TypeName(items) + "' has no len()")), ("type", Str("TypeError"))]
  {
    var d := Lookup(fs, "data").value;
    assert InputCheck(Obj(fs)) == Ok(Passed(d)) by {
      ValidateObject(fs);
    }
    ProcessShape(config, d.fields);
  }

  /** The step of `run` after validation, stated for the payload that
      validation hands on rather than for the input: a dict payload that
      `process_data` accepts comes back with "validation": "passed" appended.
      `RunSuccess` uses it once it has shown what validation hands on. */
  lemma RunProcessed(config: Config, input: Value, d: Value)
    requires InputCheck(input) == Ok(Passed(d))
    requires d.Obj?
    requires "items" in Keys(d.fields) ==> Len(Lookup(d.fields, "items").value).Ok?
    ensures Processed(config, d).Ok?
    ensures RunResult(config, input) == Processed(config, d).value + [("validation", Str("passed"))]
  {
    assert Processed(config, d).Ok? by {
      ProcessShape(config, d.fields);
    }
    var p := Processed(config, d).value;
    assert "validation" !in Keys(p) by {
      ProcessKeys(config, d.fields);
    }
    SetAbsent(p, "validation", Str("passed"));
  }

  /** On every input that `Succeeds` describes, `run` processes
      `input["data"]` without an exception and returns that result with the
      single entry "validation": "passed" appended. */
  lemma RunSuccess(config: Config, fs: Fields)
    requires Succeeds(Obj(fs))
    ensures var d := Lookup(fs, "data").value;
      Processed(config, d).Ok? &&
      RunResult(config, Obj(fs)) == Processed(config, d).value + [("validation", Str("passed"))]
  {
    var d := Lookup(fs, "data").value;
    assert InputCheck(Obj(fs)) == Ok(Passed(d)) by {
      ValidateObject(fs);
    }
    RunProcessed(config, Obj(fs), d);
  }

  /** When validation passes because `input["data"]` is a list, `process_data`
      raises and `run` returns the ValueError envelope. */
  lemma RunListData(config: Config, fs: Fields)
    requires "type" in Keys(fs) && "data" in Keys(fs) && Lookup(fs, "data").value.Arr?
    ensures RunResult(config, Obj(fs)) ==
      [("status", Str("error")), ("message", Str("Input data must be a dictionary")), ("type", Str("ValueError"))]
  {
    ValidateObject(fs);
  }

  /** `run` always reports a status, "success" or "error", and reports
      "success" exactly on the inputs of `Succeeds`. */
  lemma RunStatus(config: Config, input: Value)
    ensures Lookup(RunResult(config, input), "status") == Some(Str("success")) <==> Succeeds(input)
    ensures Lookup(RunResult(config, input), "status") == Some(Str("success"))
         || Lookup(RunResult(config, input), "status") == Some(Str("error"))
  {
    var r := RunResult(config, input);
    ValidatePassesOnlyObjects(input);
    if input.Obj? {
      var fs := input.fields;
      ValidateObject(fs);
      if Succeeds(input) {
        RunSuccess(config, fs);
        var d := Lookup(fs, "data").value;
        ProcessFields(config, d.fields);
        LookupConcat(Processed(config, d).value, [("validation", Str("passed"))], "status");
      } else if InputCheck(input).value.Passed? {
        var d := Lookup(fs, "data").value;
        if d.Obj? {
          ProcessShape(config, d.fields);
        }
      }
    }
  }

  /** `main` exits with 1 on a non-empty input that is not JSON, and
      otherwise with 0 exactly when `run` reports success. */
  lemma MainExitCode(config: Config, input: CliInput)
    ensures MainExit(config, input) == 0 || MainExit(config, input) == 1
    ensures input.InvalidJson? ==> MainExit(config, input) == 1
    ensures input.Given? ==> (MainExit(config, input) == 0 <==> Succeeds(input.arg))
    ensures input.NoInput? ==> (MainExit(config, input) == 0 <==> Succeeds(DefaultInput()))
  {
    match input
    case Given(v) => RunStatus(config, v);
    case NoInput => RunStatus(config, DefaultInput());
    case InvalidJson =>
  }

  /** Without `--input`, `main` processes its built-in example: three items,
      exit status 0. */
  lemma DefaultInputSucceeds(config: Config)
    ensures MainExit(config, NoInput) == 0
  {
    var fs := DefaultInput().fields;
    var d := fs[1].1;
    assert Keys(fs) == ["type", "data"] by {
      assert Keys(fs) == [fs[0].0] + Keys(fs[1..]);
    }
    assert Lookup(fs, "data") == Some(d) by {
      assert Lookup(fs, "data") == Lookup(fs[1..], "data");
    }
    assert Keys(d.fields) == ["items", "metadata"] by {
      assert Keys(d.fields) == [d.fields[0].0] + Keys(d.fields[1..]);
    }
    assert Succeeds(DefaultInput());
    MainExitCode(config, NoInput);
  }

  /** `main` from its `--input` text to its exit status: an absent or empty
      text runs the built-in example and exits with 0 (an empty text is never
      parsed); a non-empty text that does not parse exits with 1; any other
      text exits with 0 exactly when `run` succeeds on its parsed value. */
  lemma MainInputExit(config: Config, arg: Option<string>, parsed: Option<Value>)
    ensures arg.None? || arg.value == "" ==> MainExit(config, ReadInput(arg, parsed)) == 0
    ensures arg.Some? && arg.value != "" && parsed.None? ==> MainExit(config, ReadInput(arg, parsed)) == 1
    ensures arg.Some? && arg.value != "" && parsed.Some? ==>
      (MainExit(config, ReadInput(arg, parsed)) == 0 <==> Succeeds(parsed.value))
  {
    DefaultInputSucceeds(config);
    MainExitCode(config, ReadInput(arg, parsed));
  }

  /** A dict without "type" and "data" fails validation. The dicts the tests
      pass to `run` (test/test_example_tool.py:67) and to `main`
      (test/test_example_tool.py:125) therefore yield the failure envelope and
      exit status 1. */
  lemma RunWithoutRequiredFields(config: Config)
    ensures RunResult(config, Obj([("test", Str("data"))])) == ValidationFailed
    ensures MainExit(config, Given(Obj([("test", Str("value")), ("items", Arr([Str("a"), Str("b")]))]))) == 1
  {
    RunValidationFailure(config, [("test", Str("data"))]);
    MainExitCode(config, Given(Obj([("test", Str("value")), ("items", Arr([Str("a"), Str("b")]))])));
  }
}
