# Example tool — a Dafny model

This project models the `ExampleTool` class of `src/example_tool.py` and the
exit-code rule of its `main` function. The tool:

- loads a configuration by merging a user's JSON file over built-in defaults
  (`_load_config`);
- checks that an input dict has the fields "type" and "data", and that
  "data" is a dict or a list (`validate_input`);
- turns a dict into a fixed-shape result dict: status, input keys, a
  timestamp, tool name and version, and, when the dict has "items", an item
  count and one processed entry per item (`process_data`);
- wraps validation and processing in a status envelope that turns every
  exception into an error result (`run`);
- exits with status 0 exactly when that envelope says "success" (`main`).

The model has four modules:

- `Json` (json.dfy): JSON values. A dict is the sequence of its entries, so
  insertion order is part of the value. It also holds the two dict updates
  the tool uses, `d[k] = v` (`Set`) and `d.update(u)` (`Update`).
- `Python` (python.dfy): the built-ins the tool applies to those values:
  `in`, indexing with a string key and `len`. Each yields a value or raises a
  `ValueError`, `TypeError` or `KeyError` carrying CPython's message.
- `Tool` (tool.dfy): the tool itself.
  - Pure functions state what each operation yields: `LoadedConfig`,
    `InputCheck`, `Processed`, `RunResult` and `MainExit`.
  - The class `ExampleTool` performs the same steps one by one, with the
    source's loops. Each method is proved to compute its function.
- `ToolProperties` (tool_properties.dfy): what the tool promises, stated as
  lemmas over those functions.

The model follows the code where the repository's tests expect something
else. Three tests in `test/test_example_tool.py` expect a different outcome
from the code:

- lines 64-72 expect `run({"test": "data"})` to succeed;
- lines 74-82 expect `run("invalid input")` to report the `process_data`
  error;
- lines 123-145 expect `main` to exit with 0 on `{"test": "value", "items": ["a", "b"]}`.

In the code, all three inputs fail `validate_input`:

- the two dicts have no "type" or "data" field;
- the string contains neither field name as a substring.

So `run` returns `{"status": "error", "message": "Input validation failed"}`
and `main` exits with 1. `ToolProperties.RunWithoutRequiredFields` states this
for the two dict inputs.

## Model

| member | source | states |
|---|---|---|
| Json.SetLookup | src/example_tool.py:118-119 | after `d[k] = v`, looking up `k` gives `v`, and every other key gives what it gave before |
| Json.SetKeys | src/example_tool.py:118-119 | `d[k] = v` keeps the key order when `k` is present, and appends `k` last when it is new |
| Json.SetAbsent | src/example_tool.py:168 | setting a key the dict lacks appends exactly one entry at the end |
| Json.UpdateLookup | src/example_tool.py:65 | after `d.update(u)`, a key of `u` maps to `u`'s value, and any other key keeps its old value |
| Json.UpdateKeepsOrder | src/example_tool.py:65 | `d.update(u)` keeps every key of `d` in its original position and only appends new ones |
| Json.UpdateHasKey | src/example_tool.py:65 | after `d.update(u)`, the keys are exactly those of `d` together with those of `u` |
| Python.SubstringAt | src/example_tool.py:140 | `field in s` for a string `s` holds exactly when `field` occurs at some position of `s` |
| Tool.LoadConfig | src/example_tool.py:48-70 | the loop that copies user entries into the defaults yields `LoadedConfig(user)`: the defaults without a usable file, otherwise the defaults updated with the user's dict |
| Tool.ExampleTool.constructor | src/example_tool.py:36-46 | a new tool's `config` is the merged configuration of its user file |
| ToolProperties.ConfigMerge | src/example_tool.py:50-70 | without a user file the configuration is the defaults; a key the user gives takes the user's value; every other key keeps its default |
| ToolProperties.ConfigKeys | src/example_tool.py:50-70 | the merged configuration starts with name, version and settings in that order, holds exactly the default keys and the user keys, and has no duplicate key |
| ToolProperties.ConfigSettingsShallow | src/example_tool.py:53-65 | the merge is shallow: a user "settings" replaces the whole default settings dict |
| Tool.ExampleTool.ValidateInput | src/example_tool.py:127-149 | the loop over the required fields, then the type test on `data["data"]`, yields `InputCheck(data)`, including the exception when `data` is not a container |
| ToolProperties.ValidateObject | src/example_tool.py:137-149 | on a dict, validation never raises. It passes iff "type" and "data" are keys and `data["data"]` is a dict or list. A missing "type" is reported before a missing "data" |
| ToolProperties.ValidatePassesOnlyObjects | src/example_tool.py:137-149 | validation passes only on a dict; on None, a bool or an int it raises the "not iterable" TypeError |
| Tool.ProcessedItems | src/example_tool.py:119-122 | the processed list has one entry per position, and entry `i` is `{"id": i, "processed": true}` |
| Tool.ExampleTool.ProcessData | src/example_tool.py:87-125 | building the result and setting the two "items" entries yields `Processed(config, data)`: a ValueError for a non-dict, len's TypeError for an "items" without length, otherwise the result dict |
| Tool.SetItemEntries | src/example_tool.py:117-122 | setting "item_count" and then "processed_items" on the fixed part of a result appends exactly those two entries, in that order |
| ToolProperties.ProcessRejectsNonObject | src/example_tool.py:102-103 | anything other than a dict raises `ValueError("Input data must be a dictionary")` |
| ToolProperties.ProcessShape | src/example_tool.py:102-122 | on a dict, processing succeeds iff there is no "items" or it has a length, and otherwise raises len's TypeError. |
| ToolProperties.ProcessKeys | src/example_tool.py:106-122 | a result's keys are status, input_keys, processed_at and tool_info, followed by item_count and processed_items exactly when the input has "items" |
| ToolProperties.KeyListKeys | src/example_tool.py:108 | `input_keys` is the input's keys in insertion order, and a string is in it exactly when it is a key of the input |
| ToolProperties.ProcessFields | src/example_tool.py:106-114 | a result has status "success", the input's keys in insertion order, the fixed timestamp, and name and version taken from the configuration |
| ToolProperties.ProcessItems | src/example_tool.py:117-122 | item_count is `len(data["items"])`, and processed_items has that many entries with ids 0, 1, … in order |
| Tool.ExampleTool.Run | src/example_tool.py:151-179 | validating and then processing `input["data"]` under the exception handler yields `RunResult(config, input)` |
| ToolProperties.RunValidationFailure | src/example_tool.py:164-165 | a dict that fails validation yields `{"status": "error", "message": "Input validation failed"}` |
| ToolProperties.RunItemsWithoutLen | src/example_tool.py:117-179 | when validation passes and `input["data"]` is a dict whose "items" has no length, `run` returns `{"status": "error", "message": "object of type '<type>' has no len()", "type": "TypeError"}` |
| ToolProperties.RunProcessed | src/example_tool.py:167-171 | when validation passes with a dict that processing accepts, `run` returns the processed dict with the single entry "validation": "passed" appended |
| ToolProperties.RunSuccess | src/example_tool.py:164-171 | on every input of `Succeeds`, processing succeeds, and `run` returns its result with "validation": "passed" appended |
| ToolProperties.RunListData | src/example_tool.py:144-179 | a "data" list passes validation, but processing raises, so `run` returns the ValueError envelope |
| ToolProperties.RunStatus | src/example_tool.py:161-179 | `run` always reports "success" or "error", and "success" exactly on the inputs of `Succeeds` |
| ToolProperties.MainExitCode | src/example_tool.py:222-248 | `main` exits with 0 or 1: 1 on a non-empty input that is not JSON, and otherwise 0 exactly when `run` succeeds on the given or the default input |
| ToolProperties.MainInputExit | src/example_tool.py:222-248 | from the `--input` text: absent or empty (a falsy text is never parsed) exits with 0; non-empty and not JSON exits with 1; otherwise 0 exactly when `run` succeeds on the parsed value |
| ToolProperties.DefaultInputSucceeds | src/example_tool.py:229-248 | without `--input`, `main` processes its built-in example and exits with 0 |
| ToolProperties.RunWithoutRequiredFields | src/example_tool.py:164-165 | the two dicts the repository's tests pass to `run` and `main`, `{"test": "data"}` and `{"test": "value", "items": ["a", "b"]}`, yield the validation-failure envelope and exit status 1 |

## Left out

- Logging (`_setup_logging` and every logger call) is not modelled, because it does not affect any result.
- Argument parsing, printing the JSON result, and `sys.exit` are not modelled. `main` is modelled only through the exit status it chooses (`MainExit`).
- Reading and decoding the configuration file is not modelled. `LoadConfig` receives the file's JSON object as an `Option`: None stands for no path, a missing file, or a file whose reading raises an `IOError` or a `JSONDecodeError`. In the code, those two exceptions print a warning and leave the defaults.
- Tool.LoadConfig: a file that is not valid text raises `UnicodeDecodeError`, which the `except` at src/example_tool.py:66 does not catch; the model has no such case.
- Tool.LoadConfig: a configuration file whose top level is not a JSON object is not modelled. `dict.update` also accepts an iterable of key/value pairs: `[["name", "x"]]` sets "name", `[]` and `""` change nothing, and `["ab"]` sets "a" to "b". Numbers, booleans, null, and lists or strings whose elements are not pairs raise an exception that `_load_config` does not catch. The model takes only objects.
- Parsing `--input` is not modelled. `Tool.ReadInput` receives the option's text and what `json.loads` makes of it; an empty text counts as no input, as the truthiness test at src/example_tool.py:222 does.
- JSON floats are not modelled. Values are None, booleans, integers, strings, lists and dicts.
- Python.Exception.Message: a `KeyError` whose key contains a quote or a backslash is shown as `'key'`, not with Python's `repr` escaping. The tool never raises such a `KeyError`, because it only indexes after an `in` test.
- Exception messages follow CPython 3.11 to 3.13. Later versions reword the TypeError of `in` on a value that is not iterable ("is not a container or iterable"); `Python.In` keeps the older wording.
- Python.Len: a string's length counts Dafny characters, which are Unicode scalar values. A JSON string with a lone surrogate escape such as `"\ud800"` is a one-code-point Python string that the model cannot represent.
- Python.Len: the length of a dict is its number of entries. This is the dict's size only for dicts with distinct keys, which is what every parsed JSON object is.
- Tool.RunResult and Tool.ExampleTool.Run process the value that validation found under "data"; the code reads `input_data["data"]` again. The two are the same value, because nothing changes the input between the two reads.
- The timestamp "processed_at" is the fixed string the code writes, not a clock reading.
- Aliasing is not modelled. `validate_input` and `process_data` never mutate their input, and `run` mutates only the dict that `process_data` has just created.
- `test/test_template_structure.py` checks that the repository's files exist and that its YAML and JSON files parse; `jest.config.js` is the JavaScript test runner's configuration and has no logic. Neither concerns the tool's behaviour, so neither is part of this model.
