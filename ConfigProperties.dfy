/**
 * What validate_config promises, stated about the functional model in
 * ConfigManager (which ValidateConfig is proved to compute): the shape of the
 * code list, where each code comes from, the order of the codes, and exactly
 * which configurations are reported as valid.
 */
module ConfigProperties {
  import opened RubyValue
  import opened ConfigManager

  /** `v[name]` for a Hash `v`; nil for anything else (where Ruby would raise instead). */
  function Get(v: Value, name: string): Value {
    if v.Hash? then Lookup(v.entries, Sym(name)) else Nil
  }

  predicate Within(cs: seq<int>, lo: int, hi: int) {
    forall k | 0 <= k < |cs| :: lo <= cs[k] <= hi
  }

  /** Strictly increasing: no code twice, and in ascending order. */
  predicate Increasing(cs: seq<int>) {
    forall k | 0 <= k < |cs| - 1 :: cs[k] < cs[k + 1]
  }

  predicate NonDecreasing(cs: seq<int>) {
    forall k | 0 <= k < |cs| - 1 :: cs[k] <= cs[k + 1]
  }

  // ---------------------------------------------------------------------------
  // `each` and the order of the codes

  lemma ThenAssoc(x: Outcome, y: Outcome, z: Outcome)
    ensures Then(Then(x, y), z) == Then(x, Then(y, z))
  {
    if x.Codes? && y.Codes? && z.Codes? {
      assert x.codes + y.codes + z.codes == x.codes + (y.codes + z.codes);
    }
  }

  lemma ThenEmpty(x: Outcome)
    ensures Then(x, Codes([])) == x
  {
    if x.Codes? {
      assert x.codes + [] == x.codes;
    }
  }

  /** The codes of consecutive runs of entries concatenate: every entry contributes its own codes, in key order. */
  lemma {:induction false} EachAppend(a: seq<Pair>, b: seq<Pair>, block: Pair -> Outcome)
    ensures Each(a + b, block) == Then(Each(a, block), Each(b, block))
    decreases |b|
  {
    if b == [] {
      assert a + b == a;
      ThenEmpty(Each(a, block));
    } else {
      var init := b[..|b| - 1];
      assert (a + b)[..|a + b| - 1] == a + init;
      assert (a + b)[|a + b| - 1] == b[|b| - 1];
      EachAppend(a, init, block);
      ThenAssoc(Each(a, block), Each(init, block), block(b[|b| - 1]));
    }
  }

  /** An exception raised by the block on any entry is an exception of the whole loop. */
  lemma EachCrashes(ps: seq<Pair>, block: Pair -> Outcome, i: nat)
    requires i < |ps| && block(ps[i]).Crash?
    ensures Each(ps, block).Crash?
  {
    EachSnoc(ps, block, i);
    EachCrashPrefix(ps, block, i + 1);
  }

  /** A loop pushes nothing exactly when its block pushes nothing (and raises nothing) on every entry. */
  lemma {:induction false} EachEmpty(ps: seq<Pair>, block: Pair -> Outcome)
    ensures Each(ps, block) == Codes([]) <==> forall i | 0 <= i < |ps| :: block(ps[i]) == Codes([])
    decreases |ps|
  {
    if ps != [] {
      var init := ps[..|ps| - 1];
      EachEmpty(init, block);
      assert forall i | 0 <= i < |init| :: init[i] == ps[i];
      var x, y := Each(init, block), block(ps[|ps| - 1]);
      if x.Codes? && y.Codes? {
        assert |x.codes + y.codes| == |x.codes| + |y.codes|;
      }
    }
  }

  /** Bounds on the codes a block pushes are bounds on the codes of the whole loop. */
  lemma {:induction false} EachWithin(ps: seq<Pair>, block: Pair -> Outcome, lo: int, hi: int)
    requires forall i | 0 <= i < |ps| :: block(ps[i]).Codes? ==> Within(block(ps[i]).codes, lo, hi)
    ensures Each(ps, block).Codes? ==> Within(Each(ps, block).codes, lo, hi)
    decreases |ps|
  {
    if ps != [] {
      var init := ps[..|ps| - 1];
      assert forall i | 0 <= i < |init| :: init[i] == ps[i];
      EachWithin(init, block, lo, hi);
    }
  }

  lemma InsertSilentEntry(ps: seq<Pair>, k: nat, entry: Pair, block: Pair -> Outcome)
    requires k <= |ps| && block(entry) == Codes([])
    ensures Each(ps[..k] + [entry] + ps[k..], block) == Each(ps, block)
  {
    EachAppend(ps[..k] + [entry], ps[k..], block);
    EachAppend(ps[..k], [entry], block);
    assert [entry][..0] == [];
    ThenEmpty(Each(ps[..k], block));
    EachAppend(ps[..k], ps[k..], block);
    assert ps[..k] + ps[k..] == ps;
  }

  /** A :default entry, wherever it stands among the devices or the projects, contributes nothing. */
  lemma DefaultEntryIgnored(ps: seq<Pair>, k: nat, default: Value)
    requires k <= |ps|
    ensures Each(ps[..k] + [Pair(DefaultKey, default)] + ps[k..], DeviceStep) == Each(ps, DeviceStep)
    ensures Each(ps[..k] + [Pair(DefaultKey, default)] + ps[k..], ProjectStep) == Each(ps, ProjectStep)
  {
    InsertSilentEntry(ps, k, Pair(DefaultKey, default), DeviceStep);
    InsertSilentEntry(ps, k, Pair(DefaultKey, default), ProjectStep);
  }

  // ---------------------------------------------------------------------------
  // One device entry

  /** A credential is usable when it is present, not empty and not the template placeholder. */
  predicate Filled(field: Value, placeholder: string) {
    Truthy(field) && field != Str("") && field != Str(placeholder)
  }

  /** The three checks on a credential exclude each other: at most one code per field. */
  lemma CredentialChecksExclusive(field: Value, placeholder: string, code: int)
    requires placeholder != ""
    ensures CredentialCodes(field, placeholder, code) == if Filled(field, placeholder) then [] else [code]
  {
  }

  /** `[code]` when `condition` holds, otherwise nothing. */
  function Flag(condition: bool, code: int): seq<int> {
    if condition then [code] else []
  }

  /** Three optional codes in increasing order make an increasing list. */
  lemma FlagsIncreasing(a: bool, b: bool, c: bool, x: int, y: int, z: int)
    requires x < y < z
    ensures Within(Flag(a, x) + Flag(b, y) + Flag(c, z), x, z)
    ensures Increasing(Flag(a, x) + Flag(b, y) + Flag(c, z))
  {
  }

  /** A device entry contributes one 7, 8 or 9 exactly when its ip, user or password is unusable, in that order. */
  lemma DeviceCodesShape(device: Value)
    requires device.Hash?
    ensures var ip, user, password := Get(device, "ip"), Get(device, "user"), Get(device, "password");
      DeviceCodes(device) == Codes(Flag(!Filled(ip, "xxx.xxx.xxx.xxx"), 7)
                                   + Flag(!Filled(user, "<username>"), 8)
                                   + Flag(!Filled(password, "<password>"), 9))
    ensures DeviceCodes(device).Codes?
    ensures Within(DeviceCodes(device).codes, 7, 9) && Increasing(DeviceCodes(device).codes)
  {
    var ip, user, password := Get(device, "ip"), Get(device, "user"), Get(device, "password");
    CredentialChecksExclusive(ip, "xxx.xxx.xxx.xxx", 7);
    CredentialChecksExclusive(user, "<username>", 8);
    CredentialChecksExclusive(password, "<password>", 9);
    FlagsIncreasing(!Filled(ip, "xxx.xxx.xxx.xxx"), !Filled(user, "<username>"), !Filled(password, "<password>"), 7, 8, 9);
  }

  lemma DeviceStepWithin(entry: Pair)
    ensures DeviceStep(entry).Codes? ==> Within(DeviceStep(entry).codes, 7, 9)
  {
    if entry.key != DefaultKey && entry.val.Hash? {
      DeviceCodesShape(entry.val);
    }
  }

  // ---------------------------------------------------------------------------
  // Stages and one project entry

  /** The number of stages that are Hashes without a truthy branch. */
  function MissingBranches(ps: seq<Pair>): nat {
    if ps == [] then 0
    else (if ps[0].val.Hash? && Falsy(Lookup(ps[0].val.entries, Sym("branch"))) then 1 else 0)
         + MissingBranches(ps[1..])
  }

  /** Code 16 exactly once per stage lacking a truthy branch; raises exactly when some stage is not a Hash. */
  lemma {:induction false} StageLoopCodes(ps: seq<Pair>)
    ensures Each(ps, StageStep).Codes? <==> forall i | 0 <= i < |ps| :: ps[i].val.Hash?
    ensures Each(ps, StageStep).Codes? ==> Each(ps, StageStep).codes == seq(MissingBranches(ps), _ => 16)
    decreases |ps|
  {
    if ps != [] {
      var rest := ps[1..];
      assert ps == [ps[0]] + rest;
      EachAppend([ps[0]], rest, StageStep);
      assert [ps[0]][..0] == [];
      StageLoopCodes(rest);
      assert forall i | 0 <= i < |rest| :: rest[i] == ps[i + 1];
      if !ps[0].val.Hash? {
        assert Each(ps, StageStep).Crash?;
      } else if Each(rest, StageStep).Codes? {
        var n := MissingBranches(rest);
        assert seq(n + 1, _ => 16) == [16] + seq(n, _ => 16);
      }
    }
  }

  lemma WithinAppend(xs: seq<int>, ys: seq<int>, lo: int, hi: int)
    requires Within(xs, lo, hi) && Within(ys, lo, hi)
    ensures Within(xs + ys, lo, hi)
  {
    forall k | 0 <= k < |xs + ys|
      ensures lo <= (xs + ys)[k] <= hi
    {
      if k >= |xs| {
        assert (xs + ys)[k] == ys[k - |xs|];
      }
    }
  }

  lemma NotWithin(cs: seq<int>, lo: int, hi: int, c: int)
    requires Within(cs, lo, hi) && (c < lo || hi < c)
    ensures c !in cs
  {
  }

  /**
   * An Array of stage Hashes raises on its first element: each element is not
   * an array, so the block's v is nil and `v[:branch]` raises.
   */
  lemma ArrayOfStageHashesRaises(xs: seq<Value>)
    requires xs != [] && forall i | 0 <= i < |xs| :: xs[i].Hash?
    ensures StagesCodes(Arr(xs)) == Crash(StageNotHash)
  {
    var ps := BlockPairs(Arr(xs));
    ScalarArrayPairs(xs);
    EachSnoc(ps, StageStep, 0);
    assert ps[..0] == [];
    EachCrashPrefix(ps, StageStep, 1);
  }

  /** An Array of `[name, stage]` pairs is checked exactly like the Hash from names to stages. */
  lemma ArrayOfStagePairsLikeHash(xs: seq<Value>, ps: seq<Pair>)
    requires |xs| == |ps|
    requires forall i | 0 <= i < |xs| :: xs[i] == Arr([ps[i].key, ps[i].val])
    ensures StagesCodes(Arr(xs)) == StagesCodes(Hash(ps))
  {
    ArrayOfPairsLikeHash(xs, ps);
  }

  /** Two increasing lists, the first below the second, concatenate to an increasing list. */
  lemma IncreasingAppend(xs: seq<int>, ys: seq<int>, lo: int, mid: int, hi: int)
    requires lo <= mid < hi
    requires Within(xs, lo, mid) && Within(ys, mid + 1, hi) && Increasing(xs) && Increasing(ys)
    ensures Within(xs + ys, lo, hi) && Increasing(xs + ys)
  {
    var cs := xs + ys;
    forall k | 0 <= k < |cs|
      ensures lo <= cs[k] <= hi
    {
      if k < |xs| {
        assert cs[k] == xs[k];
      } else {
        assert cs[k] == ys[k - |xs|];
      }
    }
    forall k | 0 <= k < |cs| - 1
      ensures cs[k] < cs[k + 1]
    {
      if k + 1 < |xs| {
        assert cs[k] == xs[k] && cs[k + 1] == xs[k + 1];
      } else if k + 1 == |xs| {
        assert cs[k] == xs[k] && cs[k + 1] == ys[0];
      } else {
        assert cs[k] == ys[k - |xs|] && cs[k + 1] == ys[k + 1 - |xs|];
      }
    }
  }

  /** Increasing codes up to 15 followed by a run of 16s: non-decreasing and within 10..16. */
  lemma ThenSixteens(fixed: seq<int>, n: nat)
    requires Within(fixed, 10, 15) && Increasing(fixed)
    ensures Within(fixed + seq(n, _ => 16), 10, 16) && NonDecreasing(fixed + seq(n, _ => 16))
  {
    var cs := fixed + seq(n, _ => 16);
    forall k | 0 <= k < |cs| - 1
      ensures cs[k] <= cs[k + 1]
    {
      if k + 1 < |fixed| {
        assert cs[k] == fixed[k] && cs[k + 1] == fixed[k + 1];
      }
    }
  }

  /**
   * The codes of one project entry: 10 and 11 when app_name / directory is
   * missing, 12 and 13 for folders, 14 and 15 for files, then one 16 per stage
   * without a branch. A missing list field pushes both of its codes; a present
   * one that is not an Array pushes only the second; "" is present.
   */
  lemma ProjectCodesShape(project: Value)
    requires project.Hash?
    requires ProjectCodes(project).Codes?
    ensures var stages := Get(project, "stages");
      && (stages.Hash? || stages.Arr?)
      && ProjectCodes(project).codes
         == ProjectFieldCodes(project.entries) + seq(MissingBranches(BlockPairs(stages)), _ => 16)
    ensures Within(ProjectCodes(project).codes, 10, 16) && NonDecreasing(ProjectCodes(project).codes)
  {
    var e := project.entries;
    var stages := Lookup(e, Sym("stages"));
    var ss := BlockPairs(stages);
    StageLoopCodes(ss);
    var tail := seq(MissingBranches(ss), _ => 16);
    assert StagesCodes(stages) == Codes(tail);
    var fixed := ProjectFieldCodes(e);
    ProjectFieldsOrdered(e);
    assert ProjectCodes(project).codes == fixed + tail;
    ThenSixteens(fixed, MissingBranches(ss));
  }

  /** A missing list field reports both codes, a present non-Array only the second; "" is present. */
  lemma ListFieldShape(field: Value, missing: int, notArray: int)
    requires missing < notArray
    ensures missing in ListFieldCodes(field, missing, notArray) <==> Falsy(field)
    ensures notArray in ListFieldCodes(field, missing, notArray) <==> !field.Arr?
    ensures Within(ListFieldCodes(field, missing, notArray), missing, notArray)
    ensures Increasing(ListFieldCodes(field, missing, notArray))
  {
  }

  /**
   * Codes 10 to 15 of one project: 10 and 11 exactly when app_name / directory
   * is nil or false, 12 and 14 exactly when folders / files is, 13 and 15
   * exactly when it is not an Array.
   */
  lemma ProjectFieldsReported(e: seq<Pair>)
    ensures var cs := ProjectFieldCodes(e);
      && (10 in cs <==> Falsy(Lookup(e, Sym("app_name"))))
      && (11 in cs <==> Falsy(Lookup(e, Sym("directory"))))
      && (12 in cs <==> Falsy(Lookup(e, Sym("folders"))))
      && (13 in cs <==> !Lookup(e, Sym("folders")).Arr?)
      && (14 in cs <==> Falsy(Lookup(e, Sym("files"))))
      && (15 in cs <==> !Lookup(e, Sym("files")).Arr?)
  {
    var app, dir := Lookup(e, Sym("app_name")), Lookup(e, Sym("directory"));
    var folders, files := Lookup(e, Sym("folders")), Lookup(e, Sym("files"));
    assert ProjectFieldCodes(e)
        == Flag(Falsy(app), 10) + Flag(Falsy(dir), 11) + ListFieldCodes(folders, 12, 13) + ListFieldCodes(files, 14, 15);
    FieldFlagsReported(app, dir, folders, files);
  }

  lemma FieldFlagsReported(app: Value, dir: Value, folders: Value, files: Value)
    ensures var cs := Flag(Falsy(app), 10) + Flag(Falsy(dir), 11)
                      + ListFieldCodes(folders, 12, 13) + ListFieldCodes(files, 14, 15);
      && (10 in cs <==> Falsy(app)) && (11 in cs <==> Falsy(dir))
      && (12 in cs <==> Falsy(folders)) && (13 in cs <==> !folders.Arr?)
      && (14 in cs <==> Falsy(files)) && (15 in cs <==> !files.Arr?)
  {
    var a, d := Flag(Falsy(app), 10), Flag(Falsy(dir), 11);
    var fo, fi := ListFieldCodes(folders, 12, 13), ListFieldCodes(files, 14, 15);
    assert fo == Flag(Falsy(folders), 12) + Flag(!folders.Arr?, 13);
    assert fi == Flag(Falsy(files), 14) + Flag(!files.Arr?, 15);
    forall c | 10 <= c <= 15
      ensures c in a + d + fo + fi <==>
        (Falsy(app) && c == 10) || (Falsy(dir) && c == 11)
        || (Falsy(folders) && c == 12) || (!folders.Arr? && c == 13)
        || (Falsy(files) && c == 14) || (!files.Arr? && c == 15)
    {
      InAppend4(a, d, fo, fi, c);
      InFlag(Falsy(app), 10, c);
      InFlag(Falsy(dir), 11, c);
      InFlag(Falsy(folders), 12, c);
      InFlag(!folders.Arr?, 13, c);
      InFlag(Falsy(files), 14, c);
      InFlag(!files.Arr?, 15, c);
    }
  }

  lemma InFlag(condition: bool, code: int, c: int)
    ensures c in Flag(condition, code) <==> condition && c == code
  {
  }

  lemma InAppend4(a: seq<int>, b: seq<int>, c: seq<int>, d: seq<int>, x: int)
    ensures x in a + b + c + d <==> x in a || x in b || x in c || x in d
  {
  }

  /** Codes 10 to 15 of one project come each at most once and in increasing order. */
  lemma ProjectFieldsOrdered(e: seq<Pair>)
    ensures Within(ProjectFieldCodes(e), 10, 15) && Increasing(ProjectFieldCodes(e))
  {
    var app := Flag(Falsy(Lookup(e, Sym("app_name"))), 10);
    var dir := Flag(Falsy(Lookup(e, Sym("directory"))), 11);
    var folders := ListFieldCodes(Lookup(e, Sym("folders")), 12, 13);
    var files := ListFieldCodes(Lookup(e, Sym("files")), 14, 15);
    assert ProjectFieldCodes(e) == app + dir + folders + files;
    ListFieldShape(Lookup(e, Sym("folders")), 12, 13);
    ListFieldShape(Lookup(e, Sym("files")), 14, 15);
    IncreasingAppend(app, dir, 10, 10, 11);
    IncreasingAppend(app + dir, folders, 10, 11, 13);
    IncreasingAppend(app + dir + folders, files, 10, 13, 15);
  }

  lemma ProjectStepWithin(entry: Pair)
    ensures ProjectStep(entry).Codes? ==> Within(ProjectStep(entry).codes, 10, 16)
  {
    if entry.key != DefaultKey && ProjectCodes(entry.val).Codes? {
      ProjectCodesShape(entry.val);
    }
  }

  // ---------------------------------------------------------------------------
  // The whole configuration

  /** The :default device checks: 2 when it is missing, 3 when it is not a Symbol (so both when missing). */
  lemma DeviceDefaultShape(default: Value)
    ensures 2 in DeviceDefaultCodes(default) <==> Falsy(default)
    ensures 3 in DeviceDefaultCodes(default) <==> !default.Sym?
    ensures Within(DeviceDefaultCodes(default), 2, 3) && Increasing(DeviceDefaultCodes(default))
  {
  }

  /**
   * The :default project checks: 5 when it is missing or still the template's
   * `:"<project id>"`, never twice since the two exclude each other; 6 when it
   * is not a Symbol.
   */
  lemma ProjectDefaultShape(default: Value)
    ensures 5 in ProjectDefaultCodes(default) <==> Falsy(default) || default == ProjectIdPlaceholder
    ensures 6 in ProjectDefaultCodes(default) <==> !default.Sym?
    ensures Within(ProjectDefaultCodes(default), 5, 6) && Increasing(ProjectDefaultCodes(default))
  {
  }

  /** Every code a loop over the devices pushes lies in 7..9, over the projects in 10..16. */
  lemma LoopsWithin(devices: seq<Pair>, projects: seq<Pair>)
    ensures Each(devices, DeviceStep).Codes? ==> Within(Each(devices, DeviceStep).codes, 7, 9)
    ensures Each(projects, ProjectStep).Codes? ==> Within(Each(projects, ProjectStep).codes, 10, 16)
  {
    forall i | 0 <= i < |devices| {
      DeviceStepWithin(devices[i]);
    }
    EachWithin(devices, DeviceStep, 7, 9);
    forall i | 0 <= i < |projects| {
      ProjectStepWithin(projects[i]);
    }
    EachWithin(projects, ProjectStep, 10, 16);
  }

  /**
   * When nothing is raised, the codes are the :default checks followed by the
   * device codes and then the project codes.
   */
  lemma PushedParts(config: Value)
    requires Pushed(config).Codes?
    ensures var devices, projects := Get(config, "devices"), Get(config, "projects");
      && config.Hash? && devices.Hash? && projects.Hash?
      && Each(devices.entries, DeviceStep).Codes? && Each(projects.entries, ProjectStep).Codes?
      && Pushed(config).codes
         == DeviceDefaultCodes(Get(devices, "default")) + ProjectDefaultCodes(Get(projects, "default"))
            + (Each(devices.entries, DeviceStep).codes + Each(projects.entries, ProjectStep).codes)
  {
    var devices, projects := Get(config, "devices"), Get(config, "projects");
    var top := DeviceDefaultCodes(Get(devices, "default")) + ProjectDefaultCodes(Get(projects, "default"));
    var ds, ps := Each(devices.entries, DeviceStep), Each(projects.entries, ProjectStep);
    assert Pushed(config) == Then(Codes(top), Then(ds, ps));
  }

  /**
   * The result of validate_config, when some check fired, is the list pushed,
   * unchanged: the :default codes, then the device codes in key order, then the
   * project codes in key order, repeated codes kept.
   */
  lemma ResultOrder(config: Value)
    requires Pushed(config).Codes? && Pushed(config).codes != []
    ensures var devices, projects := Get(config, "devices"), Get(config, "projects");
      Validate(config)
      == Codes(DeviceDefaultCodes(Get(devices, "default")) + ProjectDefaultCodes(Get(projects, "default"))
               + (Each(devices.entries, DeviceStep).codes + Each(projects.entries, ProjectStep).codes))
  {
    PushedParts(config);
  }

  /** Every code pushed lies in 2..16 and is neither 1 nor 4. */
  lemma PushedWithin(config: Value)
    requires Pushed(config).Codes?
    ensures Within(Pushed(config).codes, 2, 16) && 1 !in Pushed(config).codes && 4 !in Pushed(config).codes
  {
    PushedParts(config);
    var devices, projects := Get(config, "devices"), Get(config, "projects");
    var dd, pd := Get(devices, "default"), Get(projects, "default");
    var top := DeviceDefaultCodes(dd) + ProjectDefaultCodes(pd);
    var rest := Each(devices.entries, DeviceStep).codes + Each(projects.entries, ProjectStep).codes;
    DeviceDefaultShape(dd);
    ProjectDefaultShape(pd);
    WithinAppend(DeviceDefaultCodes(dd), ProjectDefaultCodes(pd), 2, 6);
    LoopsWithin(devices.entries, projects.entries);
    WithinAppend(Each(devices.entries, DeviceStep).codes, Each(projects.entries, ProjectStep).codes, 7, 16);
    NotWithin(DeviceDefaultCodes(dd), 2, 3, 4);
    NotWithin(ProjectDefaultCodes(pd), 5, 6, 4);
    NotWithin(rest, 7, 16, 4);
    WithinAppend(top, rest, 2, 16);
    NotWithin(top + rest, 2, 16, 1);
  }


  /**
   * The returned list is never empty; it is [0] exactly when no check fired,
   * 0 never accompanies another code, and 1 and 4 never appear.
   */
  lemma ResultCodes(config: Value)
    requires Validate(config).Codes?
    ensures var cs := Validate(config).codes;
      && cs != []
      && (cs == [0] <==> Pushed(config) == Codes([]))
      && (0 in cs <==> cs == [0])
      && 1 !in cs && 4 !in cs
      && Within(cs, 0, 16)
      && (Pushed(config).codes != [] ==> cs == Pushed(config).codes)
  {
    PushedWithin(config);
    FinishWithin(Pushed(config).codes);
  }

  lemma FinishWithin(pushed: seq<int>)
    requires Within(pushed, 2, 16) && 1 !in pushed && 4 !in pushed
    ensures var cs := Finish(pushed);
      && (cs == [0] <==> pushed == [])
      && (0 in cs <==> cs == [0])
      && 1 !in cs && 4 !in cs
      && Within(cs, 0, 16)
  {
    NotWithin(pushed, 2, 16, 0);
  }

  /** Every code returned indexes a message of the error table. */
  lemma CodesHaveMessages(config: Value)
    requires Validate(config).Codes?
    ensures var cs := Validate(config).codes;
      forall k | 0 <= k < |cs| :: 0 <= cs[k] < |ErrorCodes()| && ErrorCodes()[cs[k]] != ""
  {
    ResultCodes(config);
  }


  /**
   * The :default checks as seen in the result: 2 exactly when the device
   * default is missing, 3 exactly when it is not a Symbol, 5 exactly when the
   * project default is missing or the template's placeholder, 6 exactly when
   * it is not a Symbol. Device and project entries never push these codes.
   */
  lemma DefaultsReported(config: Value)
    requires Validate(config).Codes?
    ensures var cs := Validate(config).codes;
      var dd, pd := Get(Get(config, "devices"), "default"), Get(Get(config, "projects"), "default");
      && (2 in cs <==> Falsy(dd))
      && (3 in cs <==> !dd.Sym?)
      && (5 in cs <==> Falsy(pd) || pd == ProjectIdPlaceholder)
      && (6 in cs <==> !pd.Sym?)
      && multiset(cs)[5] <= 1
  {
    PushedParts(config);
    var devices, projects := Get(config, "devices"), Get(config, "projects");
    var ds, ps := Each(devices.entries, DeviceStep).codes, Each(projects.entries, ProjectStep).codes;
    LoopsWithin(devices.entries, projects.entries);
    WithinAppend(ds, ps, 7, 16);
    DefaultsAmong(Get(devices, "default"), Get(projects, "default"), ds + ps);
    FiveAtMostOnce(Get(devices, "default"), Get(projects, "default"), ds + ps);
  }

  /** The two checks that push 5 exclude each other, and nothing else pushes 5. */
  lemma FiveAtMostOnce(deviceDefault: Value, projectDefault: Value, rest: seq<int>)
    requires Within(rest, 7, 16)
    ensures multiset(DeviceDefaultCodes(deviceDefault) + ProjectDefaultCodes(projectDefault) + rest)[5] <= 1
  {
    var dc, pc := DeviceDefaultCodes(deviceDefault), ProjectDefaultCodes(projectDefault);
    assert multiset(dc + pc + rest) == multiset(dc) + multiset(pc) + multiset(rest);
    DeviceDefaultShape(deviceDefault);
    NotWithin(dc, 2, 3, 5);
    NotWithin(rest, 7, 16, 5);
    if Falsy(projectDefault) {
      assert pc == [5] + [] + [6];
    } else if projectDefault == ProjectIdPlaceholder {
      assert pc == [] + [5] + [];
    } else {
      assert 5 !in pc;
    }
  }

  /** Followed by codes of 7 and above, the :default checks decide which of 2, 3, 5, 6 occur. */
  lemma DefaultsAmong(deviceDefault: Value, projectDefault: Value, rest: seq<int>)
    requires Within(rest, 7, 16)
    ensures var cs := DeviceDefaultCodes(deviceDefault) + ProjectDefaultCodes(projectDefault) + rest;
      && (2 in cs <==> Falsy(deviceDefault))
      && (3 in cs <==> !deviceDefault.Sym?)
      && (5 in cs <==> Falsy(projectDefault) || projectDefault == ProjectIdPlaceholder)
      && (6 in cs <==> !projectDefault.Sym?)
  {
    DeviceDefaultShape(deviceDefault);
    ProjectDefaultShape(projectDefault);
    NotWithin(DeviceDefaultCodes(deviceDefault), 2, 3, 5);
    NotWithin(DeviceDefaultCodes(deviceDefault), 2, 3, 6);
    NotWithin(ProjectDefaultCodes(projectDefault), 5, 6, 2);
    NotWithin(ProjectDefaultCodes(projectDefault), 5, 6, 3);
    forall c | 2 <= c <= 6 {
      NotWithin(rest, 7, 16, c);
    }
  }


  // ---------------------------------------------------------------------------
  // Exactly when validate_config raises

  /** The exception of a loop is the exception its block raised on some entry. */
  lemma {:induction false} EachCrashWitness(ps: seq<Pair>, block: Pair -> Outcome)
    requires Each(ps, block).Crash?
    ensures exists i | 0 <= i < |ps| :: Each(ps, block) == block(ps[i])
    decreases |ps|
  {
    var init := ps[..|ps| - 1];
    if Each(init, block).Crash? {
      EachCrashWitness(init, block);
      var i :| 0 <= i < |init| && Each(init, block) == block(init[i]);
      assert init[i] == ps[i];
    } else {
      assert Each(ps, block) == block(ps[|ps| - 1]);
    }
  }

  /** A device entry other than :default that is not a Hash. */
  predicate DeviceRaises(entry: Pair) {
    entry.key != DefaultKey && !entry.val.Hash?
  }

  /** The stages of a project that make `stages.each` raise: not enumerable, or a stage that is not a Hash. */
  predicate StagesRaise(stages: Value) {
    !(stages.Hash? || stages.Arr?)
    || exists i | 0 <= i < |BlockPairs(stages)| :: !BlockPairs(stages)[i].val.Hash?
  }

  /** A project entry other than :default that is not a Hash or whose stages raise. */
  predicate ProjectRaises(entry: Pair) {
    entry.key != DefaultKey && (!entry.val.Hash? || StagesRaise(Get(entry.val, "stages")))
  }

  lemma ProjectStepRaises(entry: Pair)
    ensures ProjectStep(entry).Crash? <==> ProjectRaises(entry)
  {
    if entry.key != DefaultKey && entry.val.Hash? {
      var stages := Get(entry.val, "stages");
      if stages.Hash? || stages.Arr? {
        StageLoopCodes(BlockPairs(stages));
      }
    }
  }

  /** A configuration on which validate_config raises. */
  predicate Raises(config: Value) {
    var devices, projects := Get(config, "devices"), Get(config, "projects");
    || !config.Hash? || !devices.Hash? || !projects.Hash?
    || (exists i | 0 <= i < |devices.entries| :: DeviceRaises(devices.entries[i]))
    || (exists i | 0 <= i < |projects.entries| :: ProjectRaises(projects.entries[i]))
  }

  /**
   * validate_config raises exactly on the configurations above, and the checks
   * run in source order: the configuration, devices, projects, every device,
   * then every project.
   */
  lemma ValidateRaises(config: Value)
    ensures Validate(config).Crash? <==> Raises(config)
    ensures var devices, projects := Get(config, "devices"), Get(config, "projects");
      && (!config.Hash? ==> Validate(config) == Crash(ConfigNotHash))
      && (config.Hash? && !devices.Hash? ==> Validate(config) == Crash(DevicesNotHash))
      && (config.Hash? && devices.Hash? && !projects.Hash? ==> Validate(config) == Crash(ProjectsNotHash))
      && (config.Hash? && devices.Hash? && projects.Hash?
          && (exists i | 0 <= i < |devices.entries| :: DeviceRaises(devices.entries[i]))
          ==> Validate(config) == Crash(DeviceNotHash))
  {
    var devices, projects := Get(config, "devices"), Get(config, "projects");
    if config.Hash? && devices.Hash? && projects.Hash? {
      var ds, ps := devices.entries, projects.entries;
      var top := DeviceDefaultCodes(Get(devices, "default")) + ProjectDefaultCodes(Get(projects, "default"));
      assert Pushed(config) == Then(Codes(top), Then(Each(ds, DeviceStep), Each(ps, ProjectStep)));
      DevicesRaise(ds);
      ProjectsRaise(ps);
    }
  }

  lemma DevicesRaise(ds: seq<Pair>)
    ensures Each(ds, DeviceStep).Crash? <==> exists i | 0 <= i < |ds| :: DeviceRaises(ds[i])
    ensures Each(ds, DeviceStep).Crash? ==> Each(ds, DeviceStep) == Crash(DeviceNotHash)
  {
    if Each(ds, DeviceStep).Crash? {
      EachCrashWitness(ds, DeviceStep);
    }
    if i :| 0 <= i < |ds| && DeviceRaises(ds[i]) {
      EachCrashes(ds, DeviceStep, i);
    }
  }

  lemma ProjectsRaise(ps: seq<Pair>)
    ensures Each(ps, ProjectStep).Crash? <==> exists i | 0 <= i < |ps| :: ProjectRaises(ps[i])
  {
    if Each(ps, ProjectStep).Crash? {
      EachCrashWitness(ps, ProjectStep);
      var i :| 0 <= i < |ps| && Each(ps, ProjectStep) == ProjectStep(ps[i]);
      ProjectStepRaises(ps[i]);
    }
    if i :| 0 <= i < |ps| && ProjectRaises(ps[i]) {
      ProjectStepRaises(ps[i]);
      EachCrashes(ps, ProjectStep, i);
    }
  }

  // ---------------------------------------------------------------------------
  // Exactly which configurations are valid

  /** A stage that passes: a Hash with a truthy branch. */
  predicate StageAccepted(stage: Pair) {
    stage.val.Hash? && Truthy(Get(stage.val, "branch"))
  }

  /** A device entry that passes: :default, or a Hash whose ip, user and password are filled in. */
  predicate DeviceAccepted(entry: Pair) {
    || entry.key == DefaultKey
    || (&& entry.val.Hash?
        && Filled(Get(entry.val, "ip"), "xxx.xxx.xxx.xxx")
        && Filled(Get(entry.val, "user"), "<username>")
        && Filled(Get(entry.val, "password"), "<password>"))
  }

  /**
   * A project entry that passes: :default, or a Hash with an app_name and a
   * directory, Arrays of folders and files, and enumerable stages that all pass.
   */
  predicate ProjectAccepted(entry: Pair) {
    || entry.key == DefaultKey
    || (var project, stages := entry.val, Get(entry.val, "stages");
        && project.Hash?
        && Truthy(Get(project, "app_name")) && Truthy(Get(project, "directory"))
        && Get(project, "folders").Arr? && Get(project, "files").Arr?
        && (stages.Hash? || stages.Arr?)
        && forall i | 0 <= i < |BlockPairs(stages)| :: StageAccepted(BlockPairs(stages)[i]))
  }

  /**
   * A configuration that passes every check: both defaults are Symbols, the
   * project default is not the template's placeholder, and every device and
   * every project passes.
   */
  predicate Accepted(config: Value) {
    var devices, projects := Get(config, "devices"), Get(config, "projects");
    && config.Hash? && devices.Hash? && projects.Hash?
    && Get(devices, "default").Sym?
    && Get(projects, "default").Sym? && Get(projects, "default") != ProjectIdPlaceholder
    && (forall i | 0 <= i < |devices.entries| :: DeviceAccepted(devices.entries[i]))
    && (forall i | 0 <= i < |projects.entries| :: ProjectAccepted(projects.entries[i]))
  }

  lemma DeviceStepEmpty(entry: Pair)
    ensures DeviceStep(entry) == Codes([]) <==> DeviceAccepted(entry)
  {
    if entry.key != DefaultKey && entry.val.Hash? {
      DeviceCodesShape(entry.val);
    }
  }

  lemma ProjectFieldsEmpty(e: seq<Pair>)
    ensures ProjectFieldCodes(e) == [] <==>
      && Truthy(Lookup(e, Sym("app_name"))) && Truthy(Lookup(e, Sym("directory")))
      && Lookup(e, Sym("folders")).Arr? && Lookup(e, Sym("files")).Arr?
  {
  }

  lemma ProjectStepEmpty(entry: Pair)
    ensures ProjectStep(entry) == Codes([]) <==> ProjectAccepted(entry)
  {
    if entry.key != DefaultKey && entry.val.Hash? {
      var e := entry.val.entries;
      var stages := Lookup(e, Sym("stages"));
      ProjectFieldsEmpty(e);
      if stages.Hash? || stages.Arr? {
        var ss := BlockPairs(stages);
        EachEmpty(ss, StageStep);
        assert forall i | 0 <= i < |ss| :: StageStep(ss[i]) == Codes([]) <==> StageAccepted(ss[i]);
      }
    }
  }

  lemma DevicesEmpty(ds: seq<Pair>)
    ensures Each(ds, DeviceStep) == Codes([]) <==> forall i | 0 <= i < |ds| :: DeviceAccepted(ds[i])
  {
    EachEmpty(ds, DeviceStep);
    forall i | 0 <= i < |ds| {
      DeviceStepEmpty(ds[i]);
    }
  }

  lemma ProjectsEmpty(ps: seq<Pair>)
    ensures Each(ps, ProjectStep) == Codes([]) <==> forall i | 0 <= i < |ps| :: ProjectAccepted(ps[i])
  {
    EachEmpty(ps, ProjectStep);
    forall i | 0 <= i < |ps| {
      ProjectStepEmpty(ps[i]);
    }
  }

  lemma ThenNothing(xs: seq<int>, second: Outcome, third: Outcome)
    ensures Then(Codes(xs), Then(second, third)) == Codes([]) <==>
      xs == [] && second == Codes([]) && third == Codes([])
  {
    if second.Codes? && third.Codes? {
      assert |xs + second.codes + third.codes| == |xs| + |second.codes| + |third.codes|;
    }
  }

  /** Nothing is pushed, and nothing raised, exactly for the configurations that pass every check. */
  lemma PushedNothing(config: Value)
    ensures Pushed(config) == Codes([]) <==> Accepted(config)
  {
    var devices, projects := Get(config, "devices"), Get(config, "projects");
    if config.Hash? && devices.Hash? && projects.Hash? {
      var ds, ps := devices.entries, projects.entries;
      var dd, pd := Get(devices, "default"), Get(projects, "default");
      var top := DeviceDefaultCodes(dd) + ProjectDefaultCodes(pd);
      assert top == [] <==> dd.Sym? && pd.Sym? && pd != ProjectIdPlaceholder;
      assert Pushed(config) == Then(Codes(top), Then(Each(ds, DeviceStep), Each(ps, ProjectStep)));
      ThenNothing(top, Each(ds, DeviceStep), Each(ps, ProjectStep));
      DevicesEmpty(ds);
      ProjectsEmpty(ps);
    }
  }

  /** validate_config returns [0] exactly for the configurations that pass every check. */
  lemma ValidIffAccepted(config: Value)
    ensures Validate(config) == Codes([0]) <==> Accepted(config)
  {
    PushedNothing(config);
    if Validate(config).Codes? {
      ResultCodes(config);
    }
  }
}
