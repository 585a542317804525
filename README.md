# roku_builder configuration validation, in Dafny

This project models `RokuBuilder::ConfigManager.validate_config` and its message table `error_codes`. It proves what the validator reports for every configuration.

`validate_config` takes the configuration hash as it is parsed from JSON with symbolized names. It walks four things:

- the two `:default` references under `devices` and `projects`;
- every device entry;
- every project entry;
- every stage of every project.

It pushes one integer code for each defect it meets and does not stop at the first one. At the end it returns the list, or `[0]` when the list is empty. `error_codes` is the 17-entry table of messages, indexed by code.

## Files

- `RubyValue.dfy` covers the part of Ruby's value model that the validator depends on:
  - nil, booleans, numbers, strings, symbols, arrays, and hashes kept in insertion order;
  - `not x`, which is true only for nil and false, so `""` is present;
  - `Hash#[]`;
  - the `(k, v)` pairs that `each {|k, v| ...}` yields on a Hash and on an Array.
- `ConfigManager.dfy` has three parts:
  - the error table;
  - a functional specification of `validate_config` (`Pushed`, `Validate`);
  - the method `ValidateConfig`, which follows the source statement by statement. It is built from one method per block and one loop method per `each`, and each method is proved equal to the specification.
- `ConfigProperties.dfy` holds lemmas about the specification:
  - which codes occur and under what conditions;
  - the order of the codes;
  - exactly when the validator raises;
  - exactly which configurations are valid.

## Behaviour of the code as written

- An exception is an outcome of its own, `Crash(fault)`. Its `Fault` names the check that raised. Whatever codes were pushed before the exception are lost with it.
- Every `x[:key]` on a value that is not a Hash raises. That covers nil, false, strings, numbers and arrays. Any `each` on something other than a Hash or an Array raises too.
- Codes 1 and 4 are in the message table, but `validate_config` can never return them:
  - When `devices` or `projects` is missing, the code is pushed, and the very next line indexes that nil or false value and raises.
  - `ValidateConfig` performs both pushes, as the source does.
  - `Pushed` leaves them out, because no result can carry them.
- A project without `stages` raises instead of being reported.
- `stages` may also be an Array. `each {|k, v| ...}` then destructures each element, and `v` is the second item of an element that is an array of at least two items, and nil otherwise. So an element of an Array of stages is checked through its second item, and an Array of stage Hashes raises on its first element.

## Model

| member | source | states |
|---|---|---|
| ConfigManager.ValidateConfig | lib/roku_builder/config_manager.rb:21-56 | the result is exactly `Validate(config)`: the codes in source order, `[0]` when there are none, or the exception the first failing index or `each` raises |
| ConfigManager.CheckDeviceDefault | lib/roku_builder/config_manager.rb:24-25 | pushes 2 when the devices default is missing and 3 when it is not a Symbol |
| ConfigManager.CheckProjectDefault | lib/roku_builder/config_manager.rb:27-29 | pushes 5 when the projects default is missing, 5 again when it is the symbol `:"<project id>"`, and 6 when it is not a Symbol |
| ConfigManager.DevicesLoop | lib/roku_builder/config_manager.rb:30-41 | the codes of every device entry other than `:default`, concatenated in key order; on the first entry that raises, that exception |
| ConfigManager.DeviceBlock | lib/roku_builder/config_manager.rb:32-40 | for one device: the checks on ip (7), user (8) and password (9), in that order; raises when the device is not a Hash |
| ConfigManager.CheckCredential | lib/roku_builder/config_manager.rb:32-34 | the three separate checks on one credential: missing, equal to the template placeholder, equal to `""` |
| ConfigManager.ProjectsLoop | lib/roku_builder/config_manager.rb:42-53 | the codes of every project entry other than `:default`, concatenated in key order; on the first entry that raises, that exception |
| ConfigManager.ProjectBlock | lib/roku_builder/config_manager.rb:44-52 | for one project: codes 10 to 15, then the stage codes; raises when the project is not a Hash or its stages raise |
| ConfigManager.CheckListField | lib/roku_builder/config_manager.rb:46-49 | for folders or files: the first code when missing, the second when not an Array |
| ConfigManager.StagesLoop | lib/roku_builder/config_manager.rb:50-52 | one 16 per stage whose branch is missing, in stage order; raises when stages is neither a Hash nor an Array, or a stage is not a Hash |
| ConfigManager.Finish | lib/roku_builder/config_manager.rb:54-55 | never empty; a non-empty list comes back unchanged (order and repeated codes kept); `[0]` exactly when given `[]` or `[0]` |
| ConfigManager.EachCrashPrefix | lib/roku_builder/config_manager.rb:30-53 | once a prefix of a loop raises, the whole loop raises with the same exception |
| ConfigManager.ErrorCodes | lib/roku_builder/config_manager.rb:61-80 | exactly 17 messages; message `c` is `Message(c)`, and none is empty |
| ConfigManager.Message | lib/roku_builder/config_manager.rb:62-80 | the message of each code 0..16 is non-empty |
| RubyValue.LookupFirst | lib/roku_builder/config_manager.rb:23-29 | `h[key]` is the value of the first entry carrying the key |
| RubyValue.LookupMissing | lib/roku_builder/config_manager.rb:23-29 | `h[key]` is nil when no entry carries the key |
| RubyValue.ArrayOfPairsLikeHash | lib/roku_builder/config_manager.rb:50 | `each {|k, v|}` on an Array of `[k, v]` arrays yields exactly the pairs of the Hash with those entries, in order |
| RubyValue.SplatDropsExtraItems | lib/roku_builder/config_manager.rb:50 | an element `[k, v, ...]` binds k and v to its first two items, whatever follows |
| RubyValue.ScalarArrayPairs | lib/roku_builder/config_manager.rb:50 | on an Array without array elements each element becomes k and v is nil |
| ConfigProperties.ArrayOfStageHashesRaises | lib/roku_builder/config_manager.rb:50-51 | a non-empty Array of stage Hashes raises `StageNotHash` on its first element |
| ConfigProperties.ArrayOfStagePairsLikeHash | lib/roku_builder/config_manager.rb:50-52 | an Array of `[name, stage]` pairs gives the same outcome as the Hash from names to stages |
| ConfigProperties.EachAppend | lib/roku_builder/config_manager.rb:30-53 | the codes of a loop over consecutive runs of entries are the codes of each run, concatenated in order |
| ConfigProperties.EachCrashes | lib/roku_builder/config_manager.rb:30-53 | a block that raises on any entry makes the whole loop raise |
| ConfigProperties.EachCrashWitness | lib/roku_builder/config_manager.rb:30-53 | the exception of a loop is the one its block raised on some entry |
| ConfigProperties.EachEmpty | lib/roku_builder/config_manager.rb:30-53 | a loop pushes nothing and raises nothing exactly when every entry does |
| ConfigProperties.EachWithin | lib/roku_builder/config_manager.rb:30-53 | bounds on what each entry pushes are bounds on what the loop pushes |
| ConfigProperties.InsertSilentEntry | lib/roku_builder/config_manager.rb:30-53 | inserting anywhere an entry that pushes nothing leaves a loop's outcome unchanged |
| ConfigProperties.DefaultEntryIgnored | lib/roku_builder/config_manager.rb:30-43 | a `:default` entry anywhere among the devices or the projects changes nothing |
| ConfigProperties.CredentialChecksExclusive | lib/roku_builder/config_manager.rb:32-40 | the three checks on one credential exclude each other: code pushed once exactly when the field is missing, empty or the placeholder, otherwise not at all |
| ConfigProperties.DeviceCodesShape | lib/roku_builder/config_manager.rb:32-40 | a device Hash never raises; it yields at most one 7, one 8 and one 9, in increasing order, each exactly when that credential is not filled in |
| ConfigProperties.DeviceStepWithin | lib/roku_builder/config_manager.rb:30-41 | a device entry pushes only codes 7 to 9 |
| ConfigProperties.StageLoopCodes | lib/roku_builder/config_manager.rb:50-52 | the stages loop raises exactly when some stage is not a Hash; otherwise it yields exactly one 16 per stage without a truthy branch, and nothing else |
| ConfigProperties.ListFieldShape | lib/roku_builder/config_manager.rb:46-49 | a missing folders/files pushes both codes, a present non-Array only the second, an Array neither |
| ConfigProperties.ProjectFieldsReported | lib/roku_builder/config_manager.rb:44-49 | code 10/11 exactly when app_name/directory is nil or false (so `""` passes), 12/14 exactly when folders/files is, and 13/15 exactly when it is not an Array |
| ConfigProperties.ProjectFieldsOrdered | lib/roku_builder/config_manager.rb:44-49 | codes 10 to 15 of a project each occur at most once, in increasing order |
| ConfigProperties.ProjectFieldsEmpty | lib/roku_builder/config_manager.rb:44-49 | a project pushes none of 10 to 15 exactly when app_name and directory are present and folders and files are Arrays |
| ConfigProperties.ProjectCodesShape | lib/roku_builder/config_manager.rb:44-52 | a project that does not raise has enumerable stages; its codes are codes 10 to 15 followed by the run of 16s, lie in 10..16 and never decrease |
| ConfigProperties.ProjectStepWithin | lib/roku_builder/config_manager.rb:42-53 | a project entry pushes only codes 10 to 16 |
| ConfigProperties.DeviceDefaultShape | lib/roku_builder/config_manager.rb:24-25 | 2 exactly when the devices default is missing, 3 exactly when it is not a Symbol, so a missing default pushes both |
| ConfigProperties.ProjectDefaultShape | lib/roku_builder/config_manager.rb:27-29 | 5 exactly when the projects default is missing or is `:"<project id>"`, 6 exactly when it is not a Symbol; each at most once, in order |
| ConfigProperties.LoopsWithin | lib/roku_builder/config_manager.rb:30-53 | the devices loop pushes only 7 to 9, the projects loop only 10 to 16 |
| ConfigProperties.PushedParts | lib/roku_builder/config_manager.rb:22-53 | when nothing raises, the codes are the `:default` checks, then the device codes, then the project codes |
| ConfigProperties.ResultOrder | lib/roku_builder/config_manager.rb:22-55 | when some check fired, the result is the pushed list unchanged: `:default` codes, then device codes, then project codes |
| ConfigProperties.PushedWithin | lib/roku_builder/config_manager.rb:22-53 | every code pushed lies in 2..16 and is neither 1 nor 4 |
| ConfigProperties.ResultCodes | lib/roku_builder/config_manager.rb:22-55 | the result is never empty; it is `[0]` exactly when nothing was pushed, and otherwise the pushed list itself; 0 never accompanies another code; 1 and 4 never appear; every code lies in 0..16 |
| ConfigProperties.CodesHaveMessages | lib/roku_builder/config_manager.rb:21-80 | every code returned indexes a non-empty message of the error table |
| ConfigProperties.DefaultsAmong | lib/roku_builder/config_manager.rb:24-29 | followed by codes of 7 and above, the `:default` checks alone decide which of 2, 3, 5, 6 occur |
| ConfigProperties.DefaultsReported | lib/roku_builder/config_manager.rb:24-29 | in the result: 2 exactly when the devices default is missing, 3 exactly when it is not a Symbol, 5 exactly when the projects default is missing or `:"<project id>"`, 6 exactly when it is not a Symbol; 5 at most once |
| ConfigProperties.FiveAtMostOnce | lib/roku_builder/config_manager.rb:27-28 | the two checks that push 5 never both fire, and nothing else pushes 5 |
| ConfigProperties.ProjectStepRaises | lib/roku_builder/config_manager.rb:42-53 | a project entry raises exactly when it is not `:default` and it is not a Hash, its stages are not enumerable, or one of its stages is not a Hash |
| ConfigProperties.DevicesRaise | lib/roku_builder/config_manager.rb:30-41 | the devices loop raises exactly when some non-default device is not a Hash, and then with that fault |
| ConfigProperties.ProjectsRaise | lib/roku_builder/config_manager.rb:42-53 | the projects loop raises exactly when some project entry raises |
| ConfigProperties.ValidateRaises | lib/roku_builder/config_manager.rb:23-53 | validate_config raises exactly on the configurations `Raises` describes, checking the configuration, then devices, projects, every device and then every project |
| ConfigProperties.DeviceStepEmpty | lib/roku_builder/config_manager.rb:30-41 | a device entry pushes nothing and does not raise exactly when it is `:default` or a Hash with ip, user and password filled in |
| ConfigProperties.ProjectStepEmpty | lib/roku_builder/config_manager.rb:42-53 | a project entry pushes nothing and does not raise exactly when it is `:default` or passes every project and stage check |
| ConfigProperties.DevicesEmpty | lib/roku_builder/config_manager.rb:30-41 | the devices loop pushes nothing exactly when every device entry passes |
| ConfigProperties.ProjectsEmpty | lib/roku_builder/config_manager.rb:42-53 | the projects loop pushes nothing exactly when every project entry passes |
| ConfigProperties.PushedNothing | lib/roku_builder/config_manager.rb:22-53 | nothing is pushed and nothing raised exactly for the configurations `Accepted` describes |
| ConfigProperties.ValidIffAccepted | lib/roku_builder/config_manager.rb:21-56 | validate_config returns `[0]` exactly for the configurations that pass every check, in both directions |

## Left out

- `get_config` (lib/roku_builder/config_manager.rb:9-14) is left out. It reads a file and calls `JSON.parse`: I/O and a foreign library. It also converts both `:default` values with `to_sym`, so codes 3 and 6 cannot fire for a configuration it loaded. The model validates any value given to it.
- `RokuBuilder.check_devices`, `initialize_logger` and `options_parse` are not part of this model. Their source is not available here, only their tests.
- Floating-point numbers are left out: a number is an unbounded integer. No check inspects numbers; a number only has to be "present" and "not a Hash".
- Objects other than JSON values are left out. So are the exception classes and messages Ruby would raise: the model records only which check raised.
- A Ruby Hash never repeats a key, but this value model does not enforce it. On a Hash with a repeated key, `Lookup` takes the first entry and `each` visits every entry.
- validate_config does not modify its argument. In the model a `Value` is immutable, so the model keeps that property by construction and no lemma states it.
- ConfigManager.ErrorCodes: the model states the table's length, its order (message `c` is `Message(c)`) and that no message is empty. No property is stated about the wording, including the misspelling of "directory" in message 11.
