/**
 * RokuBuilder::ConfigManager: the configuration validator and its message
 * table. The validator walks a parsed configuration and collects one integer
 * code per defect, never stopping at the first one; 0 alone means "valid".
 * Ruby raises where the code dereferences a value that is not a Hash, and such
 * an exception is modelled as a Crash outcome.
 */
module ConfigManager {
  import opened RubyValue

  /** Where the Ruby code raises instead of returning codes. */
  datatype Fault =
    | ConfigNotHash        // config[:devices] on a config that is not a Hash
    | DevicesNotHash       // config[:devices][:default] when devices is not a Hash
    | ProjectsNotHash      // config[:projects][:default] when projects is not a Hash
    | DeviceNotHash        // v[:ip] on a device entry that is not a Hash
    | ProjectNotHash       // v[:app_name] on a project entry that is not a Hash
    | StagesNotEnumerable  // v[:stages].each when stages is neither a Hash nor an Array
    | StageNotHash         // v[:branch] on a stage that is not a Hash

  /** The codes collected so far, or the exception that ended the call. */
  datatype Outcome = Codes(codes: seq<int>) | Crash(fault: Fault)

  /** Runs `first`, then `second`: the first exception wins, otherwise the codes concatenate. */
  function Then(first: Outcome, second: Outcome): Outcome {
    match first
    case Crash(_) => first
    case Codes(xs) =>
      match second
      case Crash(_) => second
      case Codes(ys) => Codes(xs + ys)
  }

  lemma ThenCodes(xs: seq<int>, second: Outcome, third: Outcome)
    requires second.Codes? && third.Codes?
    ensures Then(Codes(xs), Then(second, third)) == Codes(xs + second.codes + third.codes)
  {
    assert xs + (second.codes + third.codes) == xs + second.codes + third.codes;
  }

  /** `each` over the pairs `ps`, running `block` on every pair in order. */
  function Each(ps: seq<Pair>, block: Pair -> Outcome): Outcome
    decreases |ps|
  {
    if ps == [] then Codes([])
    else Then(Each(ps[..|ps| - 1], block), block(ps[|ps| - 1]))
  }

  lemma EachSnoc(ps: seq<Pair>, block: Pair -> Outcome, i: nat)
    requires i < |ps|
    ensures Each(ps[..i + 1], block) == Then(Each(ps[..i], block), block(ps[i]))
  {
    assert ps[..i + 1][..i] == ps[..i];
  }

  /** Once a prefix of the pairs raises, the whole `each` raises the same exception. */
  lemma {:induction false} EachCrashPrefix(ps: seq<Pair>, block: Pair -> Outcome, n: nat)
    requires n <= |ps|
    requires Each(ps[..n], block).Crash?
    ensures Each(ps, block) == Each(ps[..n], block)
    decreases |ps|
  {
    if n == |ps| {
      assert ps[..n] == ps;
    } else {
      var init := ps[..|ps| - 1];
      assert init[..n] == ps[..n];
      EachCrashPrefix(init, block, n);
    }
  }

  const DefaultKey: Value := Sym("default")
  const ProjectIdPlaceholder: Value := Sym("<project id>")

  /** The number of entries of the error table: codes 0 to 16. */
  const CodeCount := 17

  /** error_codes: the message for each code, indexed by the code. */
  function ErrorCodes(): (messages: seq<string>)
    ensures |messages| == CodeCount
    ensures forall c | 0 <= c < |messages| :: messages[c] == Message(c) && messages[c] != ""
  {
    seq(CodeCount, c requires 0 <= c < CodeCount => Message(c))
  }

  /** The message of one code of the table; none is empty. */
  function Message(code: int): (message: string)
    requires 0 <= code < CodeCount
    ensures message != ""
  {
    if code <= 6 then TopLevelMessage(code)
    else if code <= 9 then DeviceMessage(code)
    else ProjectMessage(code)
  }

  /** Codes 0 to 6: the configuration as a whole and the two defaults. */
  function TopLevelMessage(code: int): (message: string)
    requires 0 <= code <= 6
    ensures message != ""
  {
    match code
    case 0 => "Valid Config."
    case 1 => "Devices config is missing."
    case 2 => "Devices default is missing."
    case 3 => "Devices default is not a hash."
    case 4 => "Projects config is missing."
    case 5 => "Projects default is missing."
    case _ => "Projects default is not a hash."
  }

  /** Codes 7 to 9: one device. */
  function DeviceMessage(code: int): (message: string)
    requires 7 <= code <= 9
    ensures message != ""
  {
    match code
    case 7 => "A device config is missing its IP address."
    case 8 => "A device config is missing its username."
    case _ => "A device config is missing its password."
  }

  /** Codes 10 to 16: one project and its stages. */
  function ProjectMessage(code: int): (message: string)
    requires 10 <= code <= 16
    ensures message != ""
  {
    match code
    case 10 => "A project config is missing its app_name."
    case 11 => "A project config is missing its directorty."
    case 12 => "A project config is missing its folders."
    case 13 => "A project config's folders is not an array."
    case 14 => "A project config is missing its files."
    case 15 => "A project config's files is not an array."
    case _ => "A project stage is missing its branch."
  }

  /** Codes 2 and 3: the devices default is missing / is not a Symbol. */
  function DeviceDefaultCodes(default: Value): seq<int> {
    (if Falsy(default) then [2] else [])
    + (if !default.Sym? then [3] else [])
  }

  /** Code 5 (missing, and again for the placeholder symbol) and code 6 (not a Symbol). */
  function ProjectDefaultCodes(default: Value): seq<int> {
    (if Falsy(default) then [5] else [])
    + (if default == ProjectIdPlaceholder then [5] else [])
    + (if !default.Sym? then [6] else [])
  }

  /** The three separate checks on one device credential: missing, the template placeholder, empty. */
  function CredentialCodes(field: Value, placeholder: string, code: int): seq<int> {
    (if Falsy(field) then [code] else [])
    + (if field == Str(placeholder) then [code] else [])
    + (if field == Str("") then [code] else [])
  }

  /** Codes 7, 8 and 9 for one device entry. */
  function DeviceCodes(device: Value): Outcome {
    if !device.Hash? then Crash(DeviceNotHash)
    else
      var e := device.entries;
      Codes(CredentialCodes(Lookup(e, Sym("ip")), "xxx.xxx.xxx.xxx", 7)
            + CredentialCodes(Lookup(e, Sym("user")), "<username>", 8)
            + CredentialCodes(Lookup(e, Sym("password")), "<password>", 9))
  }

  /** The block of the devices loop: the :default entry is skipped. */
  function DeviceStep(entry: Pair): Outcome {
    if entry.key == DefaultKey then Codes([]) else DeviceCodes(entry.val)
  }

  /** The block of the stages loop: code 16 when the stage has no truthy branch. */
  function StageStep(entry: Pair): Outcome {
    if !entry.val.Hash? then Crash(StageNotHash)
    else Codes(if Falsy(Lookup(entry.val.entries, Sym("branch"))) then [16] else [])
  }

  /** `stages.each`: only a Hash or an Array can be enumerated. */
  function StagesCodes(stages: Value): Outcome {
    if !(stages.Hash? || stages.Arr?) then Crash(StagesNotEnumerable)
    else Each(BlockPairs(stages), StageStep)
  }

  /** The two checks on a list field of a project: missing, then not an Array. */
  function ListFieldCodes(field: Value, missing: int, notArray: int): seq<int> {
    (if Falsy(field) then [missing] else [])
    + (if !field.Arr? then [notArray] else [])
  }

  /** Codes 10 to 15 for one project entry, which is a Hash. */
  function ProjectFieldCodes(e: seq<Pair>): seq<int> {
    (if Falsy(Lookup(e, Sym("app_name"))) then [10] else [])
    + (if Falsy(Lookup(e, Sym("directory"))) then [11] else [])
    + ListFieldCodes(Lookup(e, Sym("folders")), 12, 13)
    + ListFieldCodes(Lookup(e, Sym("files")), 14, 15)
  }

  /** Codes 10 to 16 for one project entry. */
  function ProjectCodes(project: Value): Outcome {
    if !project.Hash? then Crash(ProjectNotHash)
    else Then(Codes(ProjectFieldCodes(project.entries)),
              StagesCodes(Lookup(project.entries, Sym("stages"))))
  }

  /** The block of the projects loop: the :default entry is skipped. */
  function ProjectStep(entry: Pair): Outcome {
    if entry.key == DefaultKey then Codes([]) else ProjectCodes(entry.val)
  }

  /**
   * The contents of `codes` just before the final check for emptiness, or the
   * exception raised on the way. Codes 1 and 4 are pushed only when devices or
   * projects is nil or false, and the very next line then raises on that value,
   * so neither code can reach a result and neither appears here; ValidateConfig
   * performs both pushes as the source does.
   */
  function Pushed(config: Value): Outcome {
    if !config.Hash? then Crash(ConfigNotHash)
    else
      var devices := Lookup(config.entries, Sym("devices"));
      if !devices.Hash? then Crash(DevicesNotHash)
      else
        var projects := Lookup(config.entries, Sym("projects"));
        if !projects.Hash? then Crash(ProjectsNotHash)
        else
          var top := DeviceDefaultCodes(Lookup(devices.entries, DefaultKey))
                     + ProjectDefaultCodes(Lookup(projects.entries, DefaultKey));
          Then(Codes(top), Then(Each(devices.entries, DeviceStep), Each(projects.entries, ProjectStep)))
  }

  /** validate_config as a function of the configuration: [0] when nothing was pushed. */
  function Validate(config: Value): Outcome {
    match Pushed(config)
    case Crash(f) => Crash(f)
    case Codes(cs) => Codes(Finish(cs))
  }

  /** The last step of validate_config: an empty list becomes [0], meaning valid. */
  function Finish(codes: seq<int>): (result: seq<int>)
    ensures result != []
    ensures forall c | c != 0 :: c in result <==> c in codes
    ensures result == [0] <==> codes == [] || codes == [0]
    ensures codes != [] ==> result == codes
  {
    if codes == [] then [0] else codes
  }

  /** One credential of a device: pushes `code` when it is missing, the placeholder, or empty. */
  method CheckCredential(field: Value, placeholder: string, code: int) returns (pushed: seq<int>)
    ensures pushed == CredentialCodes(field, placeholder, code)
  {
    pushed := [];
    if Falsy(field) { pushed := pushed + [code]; }
    if field == Str(placeholder) { pushed := pushed + [code]; }
    if field == Str("") { pushed := pushed + [code]; }
  }

  /** The block of the devices loop (the entry is not :default): pushes for ip, user, password. */
  method DeviceBlock(device: Value) returns (r: Outcome)
    ensures r == DeviceCodes(device)
  {
    if !device.Hash? {
      return Crash(DeviceNotHash);
    }
    var ip := CheckCredential(Lookup(device.entries, Sym("ip")), "xxx.xxx.xxx.xxx", 7);
    var user := CheckCredential(Lookup(device.entries, Sym("user")), "<username>", 8);
    var password := CheckCredential(Lookup(device.entries, Sym("password")), "<password>", 9);
    return Codes(ip + user + password);
  }

  /** A list field of a project: pushes `missing` when it is absent and `notArray` when it is not an Array. */
  method CheckListField(field: Value, missing: int, notArray: int) returns (pushed: seq<int>)
    ensures pushed == ListFieldCodes(field, missing, notArray)
  {
    pushed := [];
    if Falsy(field) { pushed := pushed + [missing]; }
    if !field.Arr? { pushed := pushed + [notArray]; }
  }

  /** `stages.each {|k, v| codes.push(16) if not v[:branch]}`: the inner loop of the projects loop. */
  method StagesLoop(stages: Value) returns (r: Outcome)
    ensures r == StagesCodes(stages)
  {
    if !(stages.Hash? || stages.Arr?) {
      return Crash(StagesNotEnumerable);
    }
    var ss := BlockPairs(stages);
    var codes: seq<int> := [];
    var j := 0;
    while j < |ss|
      invariant 0 <= j <= |ss|
      invariant Each(ss[..j], StageStep) == Codes(codes)
    {
      EachSnoc(ss, StageStep, j);
      var stage := ss[j].val;
      if !stage.Hash? {
        EachCrashPrefix(ss, StageStep, j + 1);
        return Crash(StageNotHash);
      }
      if Falsy(Lookup(stage.entries, Sym("branch"))) { codes := codes + [16]; }
      j := j + 1;
    }
    assert ss[..j] == ss;
    return Codes(codes);
  }

  /** The block of the projects loop (the entry is not :default): codes 10 to 15, then the stages. */
  method ProjectBlock(project: Value) returns (r: Outcome)
    ensures r == ProjectCodes(project)
  {
    if !project.Hash? {
      return Crash(ProjectNotHash);
    }
    var codes: seq<int> := [];
    if Falsy(Lookup(project.entries, Sym("app_name"))) { codes := codes + [10]; }
    if Falsy(Lookup(project.entries, Sym("directory"))) { codes := codes + [11]; }
    var folders := CheckListField(Lookup(project.entries, Sym("folders")), 12, 13);
    var files := CheckListField(Lookup(project.entries, Sym("files")), 14, 15);
    assert codes == (if Falsy(Lookup(project.entries, Sym("app_name"))) then [10] else [])
                    + (if Falsy(Lookup(project.entries, Sym("directory"))) then [11] else []);
    codes := codes + folders + files;
    assert codes == ProjectFieldCodes(project.entries);
    var stages := StagesLoop(Lookup(project.entries, Sym("stages")));
    if stages.Crash? {
      return stages;
    }
    return Codes(codes + stages.codes);
  }

  /** `config[:devices].each`: the :default entry is skipped, every other entry goes through DeviceBlock. */
  method DevicesLoop(ds: seq<Pair>) returns (r: Outcome)
    ensures r == Each(ds, DeviceStep)
  {
    var codes: seq<int> := [];
    var i := 0;
    while i < |ds|
      invariant 0 <= i <= |ds|
      invariant Each(ds[..i], DeviceStep) == Codes(codes)
    {
      EachSnoc(ds, DeviceStep, i);
      if ds[i].key != DefaultKey {
        var pushed := DeviceBlock(ds[i].val);
        if pushed.Crash? {
          EachCrashPrefix(ds, DeviceStep, i + 1);
          return pushed;
        }
        codes := codes + pushed.codes;
      }
      i := i + 1;
    }
    assert ds[..i] == ds;
    return Codes(codes);
  }

  /** `config[:projects].each`: the :default entry is skipped, every other entry goes through ProjectBlock. */
  method ProjectsLoop(ps: seq<Pair>) returns (r: Outcome)
    ensures r == Each(ps, ProjectStep)
  {
    var codes: seq<int> := [];
    var i := 0;
    while i < |ps|
      invariant 0 <= i <= |ps|
      invariant Each(ps[..i], ProjectStep) == Codes(codes)
    {
      EachSnoc(ps, ProjectStep, i);
      if ps[i].key != DefaultKey {
        var pushed := ProjectBlock(ps[i].val);
        if pushed.Crash? {
          EachCrashPrefix(ps, ProjectStep, i + 1);
          return pushed;
        }
        codes := codes + pushed.codes;
      }
      i := i + 1;
    }
    assert ps[..i] == ps;
    return Codes(codes);
  }

  /** Lines 24-25: codes 2 and 3 for the devices default. */
  method CheckDeviceDefault(default: Value) returns (pushed: seq<int>)
    ensures pushed == DeviceDefaultCodes(default)
  {
    pushed := [];
    if Falsy(default) { pushed := pushed + [2]; }
    if !default.Sym? { pushed := pushed + [3]; }
  }

  /** Lines 27-29: code 5 (twice when both checks hold) and code 6 for the projects default. */
  method CheckProjectDefault(default: Value) returns (pushed: seq<int>)
    ensures pushed == ProjectDefaultCodes(default)
  {
    pushed := [];
    if Falsy(default) { pushed := pushed + [5]; }
    if default == ProjectIdPlaceholder { pushed := pushed + [5]; }
    if !default.Sym? { pushed := pushed + [6]; }
  }

  /** validate_config: the top-level checks in source order, then the loop over the devices and the loop over the projects. */
  method ValidateConfig(config: Value) returns (r: Outcome)
    ensures r == Validate(config)
  {
    if !config.Hash? {
      return Crash(ConfigNotHash);
    }
    var codes: seq<int> := [];
    var devices := Lookup(config.entries, Sym("devices"));
    if Falsy(devices) { codes := codes + [1]; }
    if !devices.Hash? {
      return Crash(DevicesNotHash);
    }
    var deviceDefault := CheckDeviceDefault(Lookup(devices.entries, DefaultKey));
    codes := codes + deviceDefault;
    var projects := Lookup(config.entries, Sym("projects"));
    if Falsy(projects) { codes := codes + [4]; }
    if !projects.Hash? {
      return Crash(ProjectsNotHash);
    }
    var projectDefault := CheckProjectDefault(Lookup(projects.entries, DefaultKey));
    codes := codes + projectDefault;
    ghost var top := codes;
    assert top == deviceDefault + projectDefault;
    var ds := devices.entries;
    var ps := projects.entries;
    assert Pushed(config) == Then(Codes(top), Then(Each(ds, DeviceStep), Each(ps, ProjectStep)));

    var deviceCodes := DevicesLoop(ds);
    if deviceCodes.Crash? {
      assert Pushed(config) == deviceCodes;
      return deviceCodes;
    }
    codes := codes + deviceCodes.codes;
    var projectCodes := ProjectsLoop(ps);
    if projectCodes.Crash? {
      assert Pushed(config) == projectCodes;
      return projectCodes;
    }
    codes := codes + projectCodes.codes;
    ThenCodes(top, deviceCodes, projectCodes);
    assert Pushed(config) == Codes(codes);

    if codes == [] {
      codes := codes + [0];
      assert codes == [0];
    }
    return Codes(codes);
  }
}
