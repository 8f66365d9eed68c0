/** The example tool of src/example_tool.py: a configuration merged over
    defaults, an input validator, a processor that builds a fixed-shape result
    dict, and `run`, which wraps both in a status envelope. The pure functions
    below say what each operation yields; the class `ExampleTool` performs the
    same steps one by one and is proved to agree with them. */
module Tool {
  import opened Json
  import opened Python

  // ---------------------------------------------------------------------------
  // Configuration (`_load_config`)
  // ---------------------------------------------------------------------------

  function DefaultSettings(): Value
  {
    Obj([("max_retries", Int(3)), ("timeout", Int(30)), ("output_format", Str("json"))])
  }

  /** The configuration every tool starts from, before a user file is merged in. */
  function DefaultConfig(): Fields
  {
    [("name", Str("example-tool")), ("version", Str("1.0.0")), ("settings", DefaultSettings())]
  }

  /** `process_data` reads `config["name"]` and `config["version"]`. */
  predicate HasToolInfo(c: Fields)
  {
    "name" in Keys(c) && "version" in Keys(c)
  }

  /** A configuration as `_load_config` can produce it: the defaults guarantee
      that the two keys `process_data` reads are there. */
  type Config = c: Fields | HasToolInfo(c) witness DefaultConfig()

  /** The configuration `_load_config` returns. `user` is the JSON object the
      configuration file holds, or None when no path was given, the file does
      not exist, or reading it raised an IOError or a JSONDecodeError (both
      caught, leaving the defaults). The merge is `dict.update`: shallow and
      key-wise. */
  function LoadedConfig(user: Option<Fields>): Config
  {
    match user
    case None => DefaultConfig()
    case Some(u) =>
      UpdateHasKey(DefaultConfig(), u, "name");
      UpdateHasKey(DefaultConfig(), u, "version");
      Update(DefaultConfig(), u)
  }

  /** `_load_config`: copies the user's entries into the defaults one at a time. */
  method LoadConfig(user: Option<Fields>) returns (config: Config)
    ensures config == LoadedConfig(user)
  {
    var merged := DefaultConfig();
    if user.Some? {
      var u := user.value;
      for i := 0 to |u|
        invariant merged == Update(DefaultConfig(), u[..i])
      {
        assert u[..i + 1][..i] == u[..i];
        merged := Set(merged, u[i].0, u[i].1);
      }
      assert u[..|u|] == u;
    }
    assert merged == LoadedConfig(user);
    config := merged;
  }

  // ---------------------------------------------------------------------------
  // Validation (`validate_input`)
  // ---------------------------------------------------------------------------

  /** The fields `validate_input` demands, in the order it checks them. */
  const RequiredFields: seq<string> := ["type", "data"]

  /** The verdict of `validate_input`. It returns True exactly on `Passed`,
      which carries `data["data"]` for `run` to process; the other two are the
      two ways it returns False (each logged with its own message). */
  datatype Check = Passed(payload: Value) | MissingField(field: string) | DataNotContainer

  /** The first of `fields` that `field in data` finds absent, tested in order. */
  function FirstMissing(data: Value, fields: seq<string>): Outcome<Option<string>>
  {
    if fields == [] then Ok(None)
    else match In(fields[0], data)
      case Raised(e) => Raised(e)
      case Ok(present) => if present then FirstMissing(data, fields[1..]) else Ok(Some(fields[0]))
  }

  /** What `validate_input(data)` yields. */
  function InputCheck(data: Value): Outcome<Check>
  {
    match FirstMissing(data, RequiredFields)
    case Raised(e) => Raised(e)
    case Ok(Some(f)) => Ok(MissingField(f))
    case Ok(None) =>
      match GetItem(data, "data")
      case Raised(e) => Raised(e)
      case Ok(d) => Ok(if d.Obj? || d.Arr? then Passed(d) else DataNotContainer)
  }

  // ---------------------------------------------------------------------------
  // Processing (`process_data`)
  // ---------------------------------------------------------------------------

  const NotADict := "Input data must be a dictionary"
  const ProcessedAt := "2025-06-20T22:00:00Z"

  /** `list(data.keys())` as a JSON list of strings. */
  function KeyList(o: Fields): seq<Value>
  {
    seq(|o|, i requires 0 <= i < |o| => Str(o[i].0))
  }

  /** `[{"id": i, "processed": True} for i in range(n)]` */
  function ProcessedItems(n: nat): (items: seq<Value>)
    ensures |items| == n
    ensures forall i :: 0 <= i < n ==> items[i] == Obj([("id", Int(i)), ("processed", Bool(true))])
  {
    if n == 0 then [] else ProcessedItems(n - 1) + [Obj([("id", Int(n - 1)), ("processed", Bool(true))])]
  }

  /** The result dict `process_data` builds before it looks at "items". */
  function BaseResult(config: Config, data: Fields): Fields
  {
    [ ("status", Str("success")),
      ("input_keys", Arr(KeyList(data))),
      ("processed_at", Str(ProcessedAt)),
      ("tool_info", Obj([("name", Lookup(config, "name").value), ("version", Lookup(config, "version").value)])) ]
  }

  /** The four keys of the fixed part of a result, in order. */
  lemma BaseResultKeys(config: Config, fs: Fields)
    ensures Keys(BaseResult(config, fs)) == ["status", "input_keys", "processed_at", "tool_info"]
  {
    var b := BaseResult(config, fs);
    assert b[1..][1..][1..][1..] == [];
    assert Keys(b) == [b[0].0] + Keys(b[1..]);
    assert Keys(b[1..]) == [b[1].0] + Keys(b[1..][1..]);
    assert Keys(b[1..][1..]) == [b[2].0] + Keys(b[1..][1..][1..]);
  }

  /** What each entry of the fixed part of a result holds. */
  lemma BaseResultEntries(config: Config, fs: Fields)
    ensures var b := BaseResult(config, fs);
      && Lookup(b, "status") == Some(Str("success"))
      && Lookup(b, "input_keys") == Some(Arr(KeyList(fs)))
      && Lookup(b, "processed_at") == Some(Str(ProcessedAt))
      && Lookup(b, "tool_info") == Some(Obj([("name", Lookup(config, "name").value), ("version", Lookup(config, "version").value)]))
  {
    var b := BaseResult(config, fs);
    var b1 := b[1..];
    var b2 := b1[1..];
    var b3 := b2[1..];
    assert Lookup(b, "tool_info") == Lookup(b1, "tool_info") == Lookup(b2, "tool_info") == Lookup(b3, "tool_info");
    assert Lookup(b, "processed_at") == Lookup(b1, "processed_at") == Lookup(b2, "processed_at");
  }

  /** The entries `process_data` adds for "items": its length and one
      processed entry per position. */
  function ItemEntries(fs: Fields): Fields
    requires "items" in Keys(fs) ==> Len(Lookup(fs, "items").value).Ok?
  {
    if "items" !in Keys(fs) then []
    else
      var n := Len(Lookup(fs, "items").value).value;
      [("item_count", Int(n)), ("processed_items", Arr(ProcessedItems(n)))]
  }

  /** Setting "item_count" and then "processed_items" on the fixed part of a
      result appends the two entries in that order, because neither key is
      among the fixed ones. */
  // No induction: Dafny's automatic induction on `fs` only slows this proof down.
  lemma {:induction false} SetItemEntries(config: Config, fs: Fields)
    requires "items" in Keys(fs)
    requires Len(Lookup(fs, "items").value).Ok?
    ensures var n := Len(Lookup(fs, "items").value).value;
      Set(Set(BaseResult(config, fs), "item_count", Int(n)), "processed_items", Arr(ProcessedItems(n)))
        == BaseResult(config, fs) + ItemEntries(fs)
  {
    var b := BaseResult(config, fs);
    var n := Len(Lookup(fs, "items").value).value;
    var count, items := ("item_count", Int(n)), ("processed_items", Arr(ProcessedItems(n)));
    BaseResultKeys(config, fs);
    SetAbsent(b, count.0, count.1);
    KeysConcat(b, [count]);
    SetAbsent(b + [count], items.0, items.1);
    assert b + [count] + [items] == b + [count, items];
  }

  /** What `process_data(data)` yields under `config`: a ValueError for
      anything but a dict, the TypeError of `len` for an "items" value without
      a length, and otherwise the fixed entries followed by the "items" ones
      (the two keys it sets are new, so they land at the end). */
  function Processed(config: Config, data: Value): Outcome<Fields>
  {
    if !data.Obj? then Raised(ValueError(NotADict))
    else if "items" !in Keys(data.fields) then Ok(BaseResult(config, data.fields))
    else match Len(Lookup(data.fields, "items").value)
      case Raised(e) => Raised(e)
      case Ok(_) => Ok(BaseResult(config, data.fields) + ItemEntries(data.fields))
  }

  // ---------------------------------------------------------------------------
  // The status envelope (`run`) and the exit code of `main`
  // ---------------------------------------------------------------------------

  const ValidationFailed: Fields := [("status", Str("error")), ("message", Str("Input validation failed"))]

  /** What `run` returns when an exception escapes validation or processing. */
  function ErrorEnvelope(e: Exception): Fields
  {
    [("status", Str("error")), ("message", Str(e.Message())), ("type", Str(e.Name()))]
  }

  /** What `run(input)` returns under `config`. */
  function RunResult(config: Config, input: Value): Fields
  {
    match InputCheck(input)
    case Raised(e) => ErrorEnvelope(e)
    case Ok(Passed(d)) =>
      (match Processed(config, d)
       case Raised(e) => ErrorEnvelope(e)
       case Ok(results) => Set(results, "validation", Str("passed")))
    case Ok(_) => ValidationFailed
  }

  /** `0 if results.get("status") == "success" else 1` */
  function ExitCode(results: Fields): int
  {
    if Lookup(results, "status") == Some(Str("success")) then 0 else 1
  }

  /** The input `main` runs on when no `--input` is given. */
  function DefaultInput(): Value
  {
    Obj([ ("type", Str("example")),
          ("data", Obj([ ("items", Arr([Str("item1"), Str("item2"), Str("item3")])),
                         ("metadata", Obj([("source", Str("example")), ("timestamp", Str("2025-06-20T22:00:00Z"))])) ])) ])
  }

  /** What `main` makes of its `--input` argument: no input (the option is
      absent or empty), a parsed JSON value, or text that does not parse. */
  datatype CliInput = NoInput | Given(arg: Value) | InvalidJson

  /** How `main` classifies `--input`. `arg` is the option's text, if given,
      and `parsed` what `json.loads` makes of it (None when it raises). The
      test on the text is on truthiness, so an empty text is no input and is
      never parsed. */
  function ReadInput(arg: Option<string>, parsed: Option<Value>): CliInput
  {
    if arg.None? || arg.value == "" then NoInput
    else match parsed
      case None => InvalidJson
      case Some(v) => Given(v)
  }

  /** The status `main` exits with: 1 at once for a non-empty input that does
      not parse, otherwise the exit code of the result of `run`. */
  function MainExit(config: Config, input: CliInput): int
  {
    match input
    case InvalidJson => 1
    case NoInput => ExitCode(RunResult(config, DefaultInput()))
    case Given(v) => ExitCode(RunResult(config, v))
  }

  // ---------------------------------------------------------------------------
  // The tool object
  // ---------------------------------------------------------------------------

  class ExampleTool {
    /** `self.config`, set once by the constructor. */
    const config: Config

    constructor (user: Option<Fields>)
      ensures config == LoadedConfig(user)
    {
      var c := LoadConfig(user);
      config := c;
    }

    /** `validate_input`: tests the required fields in order and stops at the
        first one missing, then tests the kind of `data["data"]`. */
    method ValidateInput(data: Value) returns (r: Outcome<Check>)
      ensures r == InputCheck(data)
    {
      var fields := RequiredFields;
      for i := 0 to |fields|
        invariant FirstMissing(data, fields) == FirstMissing(data, fields[i..])
      {
        var present := In(fields[i], data);
        if present.Raised? {
          return Raised(present.exc);
        }
        if !present.value {
          return Ok(MissingField(fields[i]));
        }
        assert fields[i..][1..] == fields[i + 1..];
      }
      var d := GetItem(data, "data");
      if d.Raised? {
        return Raised(d.exc);
      }
      if !(d.value.Obj? || d.value.Arr?) {
        return Ok(DataNotContainer);
      }
      return Ok(Passed(d.value));
    }

    /** `process_data`: builds the fixed part of the result, then adds the two
        "items" entries when the input has that key. */
    method ProcessData(data: Value) returns (r: Outcome<Fields>)
      ensures r == Processed(config, data)
    {
      if !data.Obj? {
        return Raised(ValueError(NotADict));
      }
      var results := BaseResult(config, data.fields);
      if "items" in Keys(data.fields) {
        var n := Len(Lookup(data.fields, "items").value);
        if n.Raised? {
          return Raised(n.exc);
        }
        results := Set(results, "item_count", Int(n.value));
        results := Set(results, "processed_items", Arr(ProcessedItems(n.value)));
        SetItemEntries(config, data.fields);
      }
      return Ok(results);
    }

    /** `run`: validation, then processing, with every exception turned into an
        error envelope. */
    method Run(input: Value) returns (r: Fields)
      ensures r == RunResult(config, input)
    {
      var check := ValidateInput(input);
      if check.Raised? {
        return ErrorEnvelope(check.exc);
      }
      if !check.value.Passed? {
        return ValidationFailed;
      }
      var processed := ProcessData(check.value.payload);
      if processed.Raised? {
        return ErrorEnvelope(processed.exc);
      }
      r := Set(processed.value, "validation", Str("passed"));
    }
  }
}
