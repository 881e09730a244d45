/**
 * The schema validator for pipeline workflow configuration files
 * (src/utils/config_loader.py): a parsed YAML document goes in, an ordered
 * list of `ConfigError`s comes out, empty when the document is valid.
 *
 * The document is a `PyValue.Value` dictionary. The validators use Python's
 * own `in` and subscript on whatever each list item happens to be, so an item
 * that is not a container makes `field in item` raise `TypeError`; that is why
 * every validator returns an `Outcome`.
 */
module ConfigLoader {
  import opened PyValue
  import opened Strings

  const SupportedVersions: seq<string> := ["1.0"]
  const ValidWorkflows: seq<string> := ["blend_batch", "download_batch", "upload_batch", "full_pipeline"]
  const ValidBlendMethods: seq<string> := ["linear", "snn", "spade"]
  const ValidFormats: seq<string> := ["fbx", "bvh"]

  /** The messages that embed the constant lists, as Python's f-strings render them. */
  const UnsupportedVersionMessage := "Unsupported version (supported: ['1.0'])"
  const InvalidWorkflowMessage :=
    "Invalid workflow type (valid: ['blend_batch', 'download_batch', 'upload_batch', 'full_pipeline'])"
  const InvalidMethodMessage := "Invalid method (valid: ['linear', 'snn', 'spade'])"
  const InvalidFormatMessage := "Invalid format (valid: fbx, bvh)"

  /** A validation error; a `value` of `Null` stands for the default `None`. */
  datatype ConfigError = ConfigError(field: string, message: string, value: Value)

  function Missing(field: string): ConfigError {
    ConfigError(field, "Missing required field", Null)
  }

  /** `str(error)`; `render` is `str()` of the offending value. */
  function ErrorToString(e: ConfigError, render: Value -> string): (r: string)
    ensures StartsWith(r, e.field + ": " + e.message)
    ensures e.value == Null ==> r == e.field + ": " + e.message
    ensures e.value != Null ==> EndsWith(r, " (got: " + render(e.value) + ")")
  {
    var head := e.field + ": " + e.message;
    var r := if e.value != Null then head + " (got: " + render(e.value) + ")" else head;
    assert r[..|head|] == head;
    r
  }

  /**
   * For field names and messages that do not themselves contain "(got: ",
   * the rendering shows "(got: " exactly when the error carries a value.
   */
  lemma GotShownIffValue(e: ConfigError, render: Value -> string)
    requires !Contains(e.field + ": " + e.message, "(got: ")
    ensures Contains(ErrorToString(e, render), "(got: ") <==> e.value != Null
  {
    var head := e.field + ": " + e.message;
    var r := ErrorToString(e, render);
    if e.value != Null {
      assert r == head + " (got: " + render(e.value) + ")";
      assert r[|head| + 1..|head| + 1 + |"(got: "|] == "(got: ";
      assert OccursAt(r, "(got: ", |head| + 1);
    }
  }

  /** `v in xs` for a list of strings: only an equal string is a member. */
  predicate InStrings(v: Value, xs: seq<string>) {
    v.Str? && v.s in xs
  }

  /** The checks of the two required top-level fields, `version` then `workflow`. */
  function TopLevelErrors(config: map<string, Value>): (r: seq<ConfigError>)
    ensures |r| <= 2
    ensures forall k :: 0 <= k < |r| ==> r[k].field == "version" || r[k].field == "workflow"
  {
    (if "version" !in config then [Missing("version")]
     else if !InStrings(config["version"], SupportedVersions) then
       [ConfigError("version", UnsupportedVersionMessage, config["version"])]
     else [])
    + (if "workflow" !in config then [Missing("workflow")]
       else if !InStrings(config["workflow"], ValidWorkflows) then
         [ConfigError("workflow", InvalidWorkflowMessage, config["workflow"])]
       else [])
  }

  /** `errors.extend(...)` when both parts run without raising. */
  function Extend(a: Outcome<seq<ConfigError>>, b: Outcome<seq<ConfigError>>): Outcome<seq<ConfigError>> {
    match a
    case Raised(e) => Raised(e)
    case Ok(x) =>
      match b
      case Raised(e) => Raised(e)
      case Ok(y) => Ok(x + y)
  }

  /** The three list-valued workflow sections. */
  datatype Section = Blends | Downloads | Uploads {
    function Key(): string {
      match this
      case Blends => "blends"
      case Downloads => "downloads"
      case Uploads => "uploads"
    }

    function Workflow(): string {
      match this
      case Blends => "blend_batch"
      case Downloads => "download_batch"
      case Uploads => "upload_batch"
    }

    function Noun(): string {
      match this
      case Blends => "blend"
      case Downloads => "download"
      case Uploads => "upload"
    }

    /** The fields every item must have, in the order they are checked. */
    function Required(): seq<string> {
      match this
      case Blends => ["input1", "input2", "output"]
      case Downloads => ["animation_id", "output"]
      case Uploads => ["file"]
    }

    /** The optional fields whose values are checked when present, in order. */
    function Optional(): seq<Check> {
      match this
      case Blends => [Ratio, Method]
      case Downloads => [Format]
      case Uploads => [Folder]
    }
  }

  /** The checks on optional item fields. */
  datatype Check = Ratio | Method | Format | Folder {
    function Key(): string {
      match this
      case Ratio => "ratio"
      case Method => "method"
      case Format => "format"
      case Folder => "folder"
    }

    /** The errors for the value `v` of this field of the item named `prefix`. */
    function Errors(prefix: string, v: Value): (r: seq<ConfigError>)
      ensures |r| <= 1
      ensures r == [] <==> ValueOk(v)
      ensures r != [] ==> r[0].field == prefix + "." + Key()
    {
      var field := prefix + "." + Key();
      match this
      case Ratio =>
        if !IsNumber(v) then [ConfigError(field, "Must be a number", Str(TypeName(v)))]
        else if !(0.0 <= NumValue(v) <= 1.0) then [ConfigError(field, "Must be between 0.0 and 1.0", v)]
        else []
      case Method =>
        if !InStrings(v, ValidBlendMethods) then [ConfigError(field, InvalidMethodMessage, v)] else []
      case Format =>
        if !InStrings(v, ValidFormats) then [ConfigError(field, InvalidFormatMessage, v)] else []
      case Folder =>
        if !v.Str? then [ConfigError(field, "Must be a string", Str(TypeName(v)))] else []
    }

    /** The value a valid configuration may hold in this field. */
    predicate ValueOk(v: Value) {
      match this
      case Ratio => IsNumber(v) && 0.0 <= NumValue(v) <= 1.0
      case Method => v in [Str("linear"), Str("snn"), Str("spade")]
      case Format => v in [Str("fbx"), Str("bvh")]
      case Folder => v.Str?
    }
  }

  /** `items[i]`'s field prefix, `f"{key}[{i}]"`. */
  function ItemPrefix(s: Section, i: nat): string {
    s.Key() + "[" + NatToString(i) + "]"
  }

  /** One iteration of `for field in [...]: if field not in item: ...`. */
  function FieldErrors(prefix: string, field: string, item: Value): Outcome<seq<ConfigError>> {
    match In(field, item)
    case Raised(e) => Raised(e)
    case Ok(present) => Ok(if present then [] else [Missing(prefix + "." + field)])
  }

  /** The required-field loop from field `k` on, with `acc` collected so far. */
  function MissingFrom(prefix: string, fields: seq<string>, item: Value, k: nat, acc: seq<ConfigError>)
    : Outcome<seq<ConfigError>>
    requires k <= |fields|
    decreases |fields| - k
  {
    if k == |fields| then Ok(acc)
    else
      match FieldErrors(prefix, fields[k], item)
      case Raised(e) => Raised(e)
      case Ok(x) => MissingFrom(prefix, fields, item, k + 1, acc + x)
  }

  /** The required-field loop over one item. */
  method MissingFieldErrors(prefix: string, fields: seq<string>, item: Value) returns (r: Outcome<seq<ConfigError>>)
    ensures r == MissingFrom(prefix, fields, item, 0, [])
  {
    var errors: seq<ConfigError> := [];
    var k := 0;
    while k < |fields|
      invariant k <= |fields|
      invariant MissingFrom(prefix, fields, item, k, errors) == MissingFrom(prefix, fields, item, 0, [])
    {
      var present := In(fields[k], item);
      if present.Raised? {
        return Raised(present.exc);
      }
      var x := if present.value then [] else [Missing(prefix + "." + fields[k])];
      assert FieldErrors(prefix, fields[k], item) == Ok(x);
      errors := errors + x;
      k := k + 1;
    }
    return Ok(errors);
  }

  /** `if key in item: v = item[key]; <check v>` (for `folder` the `and` short-circuits the same way). */
  function OptionalErrors(prefix: string, c: Check, item: Value): Outcome<seq<ConfigError>> {
    match In(c.Key(), item)
    case Raised(e) => Raised(e)
    case Ok(present) =>
      if !present then Ok([])
      else
        match Subscript(item, c.Key())
        case Raised(e) => Raised(e)
        case Ok(v) => Ok(c.Errors(prefix, v))
  }

  /** The optional-field checks `checks` in order. */
  function OptionalsErrors(prefix: string, checks: seq<Check>, item: Value): Outcome<seq<ConfigError>> {
    if checks == [] then Ok([])
    else Extend(OptionalErrors(prefix, checks[0], item), OptionalsErrors(prefix, checks[1..], item))
  }

  /** The errors of the `i`-th item of a section. */
  function ItemErrors(s: Section, i: nat, item: Value): Outcome<seq<ConfigError>> {
    var prefix := ItemPrefix(s, i);
    Extend(MissingFrom(prefix, s.Required(), item, 0, []), OptionalsErrors(prefix, s.Optional(), item))
  }

  /** The body of the `for i, item in enumerate(items)` loop. */
  method ValidateItem(s: Section, i: nat, item: Value) returns (r: Outcome<seq<ConfigError>>)
    ensures r == ItemErrors(s, i, item)
  {
    var prefix := ItemPrefix(s, i);
    var missing := MissingFieldErrors(prefix, s.Required(), item);
    r := Extend(missing, OptionalsErrors(prefix, s.Optional(), item));
  }

  /** The item loop from index `i` on, with `acc` collected so far. */
  function ItemsFrom(s: Section, items: seq<Value>, i: nat, acc: seq<ConfigError>): Outcome<seq<ConfigError>>
    requires i <= |items|
    decreases |items| - i
  {
    if i == |items| then Ok(acc)
    else
      match ItemErrors(s, i, items[i])
      case Raised(e) => Raised(e)
      case Ok(x) => ItemsFrom(s, items, i + 1, acc + x)
  }

  /** What `_validate_blend_batch`, `_validate_download_batch` and `_validate_upload_batch` return. */
  function SectionErrors(config: map<string, Value>, s: Section): Outcome<seq<ConfigError>> {
    if s.Key() !in config then Ok([ConfigError(s.Key(), "Missing required field for " + s.Workflow(), Null)])
    else
      var v := config[s.Key()];
      if !v.List? then Ok([ConfigError(s.Key(), "Must be a list", Str(TypeName(v)))])
      else
        var head := if v.items == [] then [ConfigError(s.Key(), "Must contain at least one " + s.Noun(), Null)] else [];
        ItemsFrom(s, v.items, 0, head)
  }

  /** `_validate_blend_batch` / `_validate_download_batch` / `_validate_upload_batch`. */
  method ValidateSection(config: map<string, Value>, s: Section) returns (r: Outcome<seq<ConfigError>>)
    ensures r == SectionErrors(config, s)
  {
    var errors: seq<ConfigError> := [];
    if s.Key() !in config {
      errors := errors + [ConfigError(s.Key(), "Missing required field for " + s.Workflow(), Null)];
      assert errors == [ConfigError(s.Key(), "Missing required field for " + s.Workflow(), Null)];
      return Ok(errors);
    }
    var items := config[s.Key()];
    if !items.List? {
      errors := errors + [ConfigError(s.Key(), "Must be a list", Str(TypeName(items)))];
      assert errors == [ConfigError(s.Key(), "Must be a list", Str(TypeName(items)))];
      return Ok(errors);
    }
    if |items.items| == 0 {
      errors := errors + [ConfigError(s.Key(), "Must contain at least one " + s.Noun(), Null)];
    }
    assert errors == if items.items == [] then [ConfigError(s.Key(), "Must contain at least one " + s.Noun(), Null)] else [];
    var i := 0;
    while i < |items.items|
      invariant i <= |items.items|
      invariant ItemsFrom(s, items.items, i, errors) == SectionErrors(config, s)
    {
      var more := ValidateItem(s, i, items.items[i]);
      if more.Raised? {
        return Raised(more.exc);
      }
      errors := errors + more.value;
      i := i + 1;
    }
    return Ok(errors);
  }

  /** `_validate_full_pipeline`: one error per missing section, in the order download, blend, upload. */
  function FullPipelineErrors(config: map<string, Value>): (r: seq<ConfigError>)
    ensures forall k :: 0 <= k < |r| ==> r[k].field !in config
  {
    (if "download" !in config then [ConfigError("download", "Missing required field for full_pipeline", Null)] else [])
    + (if "blend" !in config then [ConfigError("blend", "Missing required field for full_pipeline", Null)] else [])
    + (if "upload" !in config then [ConfigError("upload", "Missing required field for full_pipeline", Null)] else [])
  }

  /** The workflow-specific part, dispatched on `config.get("workflow")`. */
  function WorkflowErrors(config: map<string, Value>): Outcome<seq<ConfigError>> {
    var w := if "workflow" in config then config["workflow"] else Null;
    if w == Str("blend_batch") then SectionErrors(config, Blends)
    else if w == Str("download_batch") then SectionErrors(config, Downloads)
    else if w == Str("upload_batch") then SectionErrors(config, Uploads)
    else if w == Str("full_pipeline") then Ok(FullPipelineErrors(config))
    else Ok([])
  }

  /** What `validate_config` returns. */
  function ConfigErrors(config: map<string, Value>): Outcome<seq<ConfigError>> {
    Extend(Ok(TopLevelErrors(config)), WorkflowErrors(config))
  }

  /** `validate_config`. */
  method ValidateConfig(config: map<string, Value>) returns (r: Outcome<seq<ConfigError>>)
    ensures r == ConfigErrors(config)
  {
    var errors := TopLevelErrors(config);
    var workflow := if "workflow" in config then config["workflow"] else Null;
    var more: Outcome<seq<ConfigError>> := Ok([]);
    if workflow == Str("blend_batch") {
      more := ValidateSection(config, Blends);
    } else if workflow == Str("download_batch") {
      more := ValidateSection(config, Downloads);
    } else if workflow == Str("upload_batch") {
      more := ValidateSection(config, Uploads);
    } else if workflow == Str("full_pipeline") {
      more := Ok(FullPipelineErrors(config));
    }
    if more.Raised? {
      return Raised(more.exc);
    }
    return Ok(errors + more.value);
  }

  // ---------------------------------------------------------------------------
  // Properties of the validator
  // ---------------------------------------------------------------------------

  /** The top-level errors come first in every result. */
  lemma TopLevelFirst(config: map<string, Value>)
    ensures ConfigErrors(config).Ok? ==> ConfigErrors(config).value[..|TopLevelErrors(config)|] == TopLevelErrors(config)
  {
  }

  /** A missing `version` is the first error. */
  lemma MissingVersionFirst(config: map<string, Value>)
    requires "version" !in config
    ensures ConfigErrors(config).Ok? ==> ConfigErrors(config).value[0] == Missing("version")
  {
  }

  /** A version other than "1.0" is the first error, and it carries the value found. */
  lemma UnsupportedVersionFirst(config: map<string, Value>)
    requires "version" in config && config["version"] != Str("1.0")
    ensures ConfigErrors(config).Ok? ==>
      ConfigErrors(config).value[0] == ConfigError("version", UnsupportedVersionMessage, config["version"])
  {
  }

  /** A valid version produces no error on field `version`, and the workflow checks produce none either. */
  lemma NoVersionErrorWhenSupported(config: map<string, Value>)
    requires "version" in config && config["version"] == Str("1.0")
    ensures ConfigErrors(config).Ok? ==>
      forall k :: 0 <= k < |ConfigErrors(config).value| ==> ConfigErrors(config).value[k].field != "version"
  {
    WorkflowErrorsFields(config);
  }

  /** The workflow-specific errors never name `version` or `workflow`. */
  lemma WorkflowErrorsFields(config: map<string, Value>)
    ensures WorkflowErrors(config).Ok? ==> forall k :: 0 <= k < |WorkflowErrors(config).value| ==>
      WorkflowErrors(config).value[k].field != "version" && WorkflowErrors(config).value[k].field != "workflow"
  {
    var w := if "workflow" in config then config["workflow"] else Null;
    if w == Str("blend_batch") { SectionErrorsFields(config, Blends); }
    else if w == Str("download_batch") { SectionErrorsFields(config, Downloads); }
    else if w == Str("upload_batch") { SectionErrorsFields(config, Uploads); }
    forall s: Section, f: string | StartsWith(f, s.Key())
      ensures f != "version" && f != "workflow"
    {
      assert f[0] == s.Key()[0];
    }
  }

  /** Every error of a section names the section or one of its items. */
  lemma SectionErrorsFields(config: map<string, Value>, s: Section)
    ensures SectionErrors(config, s).Ok? ==> forall k :: 0 <= k < |SectionErrors(config, s).value| ==>
      StartsWith(SectionErrors(config, s).value[k].field, s.Key())
  {
    if s.Key() in config && config[s.Key()].List? {
      var items := config[s.Key()].items;
      var head := if items == [] then [ConfigError(s.Key(), "Must contain at least one " + s.Noun(), Null)] else [];
      assert StartsWith(s.Key(), s.Key());
      ItemsFromFields(s, items, 0, head);
    } else {
      assert StartsWith(s.Key(), s.Key());
    }
  }

  lemma {:induction false} ItemsFromFields(s: Section, items: seq<Value>, i: nat, acc: seq<ConfigError>)
    requires i <= |items|
    requires forall k :: 0 <= k < |acc| ==> StartsWith(acc[k].field, s.Key())
    ensures ItemsFrom(s, items, i, acc).Ok? ==> forall k :: 0 <= k < |ItemsFrom(s, items, i, acc).value| ==>
      StartsWith(ItemsFrom(s, items, i, acc).value[k].field, s.Key())
    decreases |items| - i
  {
    if i < |items| {
      var x := ItemErrors(s, i, items[i]);
      if x.Ok? {
        ItemErrorsFields(s, i, items[i]);
        ItemsFromFields(s, items, i + 1, acc + x.value);
      }
    }
  }

  /** Every error of an item is named by the item's prefix. */
  lemma ItemErrorsFields(s: Section, i: nat, item: Value)
    ensures ItemErrors(s, i, item).Ok? ==> forall k :: 0 <= k < |ItemErrors(s, i, item).value| ==>
      StartsWith(ItemErrors(s, i, item).value[k].field, s.Key())
  {
    var prefix := ItemPrefix(s, i);
    assert StartsWith(prefix, s.Key()) by { assert prefix[..|s.Key()|] == s.Key(); }
    MissingFromFields(prefix, s.Required(), item, 0, [], s.Key());
    OptionalsFields(prefix, s.Optional(), item, s.Key());
  }

  lemma {:induction false} MissingFromFields(prefix: string, fields: seq<string>, item: Value, k: nat,
                                             acc: seq<ConfigError>, key: string)
    requires k <= |fields|
    requires StartsWith(prefix, key)
    requires forall j :: 0 <= j < |acc| ==> StartsWith(acc[j].field, key)
    ensures MissingFrom(prefix, fields, item, k, acc).Ok? ==>
      forall j :: 0 <= j < |MissingFrom(prefix, fields, item, k, acc).value| ==>
        StartsWith(MissingFrom(prefix, fields, item, k, acc).value[j].field, key)
    decreases |fields| - k
  {
    if k < |fields| {
      var x := FieldErrors(prefix, fields[k], item);
      if x.Ok? {
        var f := prefix + "." + fields[k];
        assert f[..|key|] == key by { assert f[..|prefix|] == prefix; }
        MissingFromFields(prefix, fields, item, k + 1, acc + x.value, key);
      }
    }
  }

  lemma {:induction false} OptionalsFields(prefix: string, checks: seq<Check>, item: Value, key: string)
    requires StartsWith(prefix, key)
    ensures OptionalsErrors(prefix, checks, item).Ok? ==>
      forall j :: 0 <= j < |OptionalsErrors(prefix, checks, item).value| ==>
        StartsWith(OptionalsErrors(prefix, checks, item).value[j].field, key)
  {
    if checks != [] {
      OptionalsFields(prefix, checks[1..], item, key);
      var c := checks[0];
      var f := prefix + "." + c.Key();
      assert f[..|key|] == key by { assert f[..|prefix|] == prefix; }
    }
  }

  /** Workflow-specific checks run only for the four valid workflows. */
  lemma OtherWorkflowsUnchecked(config: map<string, Value>)
    requires !("workflow" in config && InStrings(config["workflow"], ValidWorkflows))
    ensures ConfigErrors(config) == Ok(TopLevelErrors(config))
    ensures "workflow" !in config ==> Missing("workflow") in TopLevelErrors(config)
    ensures "workflow" in config ==>
      ConfigError("workflow", InvalidWorkflowMessage, config["workflow"]) in TopLevelErrors(config)
  {
    assert WorkflowErrors(config) == Ok([]) by {
      assert "blend_batch" in ValidWorkflows && "download_batch" in ValidWorkflows;
      assert "upload_batch" in ValidWorkflows && "full_pipeline" in ValidWorkflows;
    }
    assert TopLevelErrors(config) + [] == TopLevelErrors(config);
  }

  /** A missing section, or one that is not a list, yields exactly one error and stops there. */
  lemma SectionMissingOrNotList(config: map<string, Value>, s: Section)
    requires s.Key() !in config || !config[s.Key()].List?
    ensures SectionErrors(config, s).Ok? && |SectionErrors(config, s).value| == 1
    ensures s.Key() !in config ==>
      SectionErrors(config, s).value[0] == ConfigError(s.Key(), "Missing required field for " + s.Workflow(), Null)
    ensures s.Key() in config ==>
      SectionErrors(config, s).value[0] == ConfigError(s.Key(), "Must be a list", Str(TypeName(config[s.Key()])))
  {
  }

  /** An empty section list yields exactly "Must contain at least one ...". */
  lemma SectionEmpty(config: map<string, Value>, s: Section)
    requires s.Key() in config && config[s.Key()] == List([])
    ensures SectionErrors(config, s) == Ok([ConfigError(s.Key(), "Must contain at least one " + s.Noun(), Null)])
  {
  }

  /** `fields` without those present in `m`, in order. */
  function Absent(fields: seq<string>, m: map<string, Value>): (r: seq<string>)
    ensures |r| <= |fields|
  {
    if fields == [] then [] else (if fields[0] in m then [] else [fields[0]]) + Absent(fields[1..], m)
  }

  /** No field is absent exactly when every field is present. */
  lemma {:induction false} AbsentEmpty(fields: seq<string>, m: map<string, Value>)
    ensures Absent(fields, m) == [] <==> forall k :: 0 <= k < |fields| ==> fields[k] in m
  {
    if fields != [] {
      AbsentEmpty(fields[1..], m);
      assert forall k :: 1 <= k < |fields| ==> fields[k] == fields[1..][k - 1];
    }
  }

  function MissingList(prefix: string, names: seq<string>): (r: seq<ConfigError>)
    ensures |r| == |names|
  {
    if names == [] then [] else [Missing(prefix + "." + names[0])] + MissingList(prefix, names[1..])
  }

  /** The `k`-th error of `MissingList` names the `k`-th field. */
  lemma {:induction false} MissingListAt(prefix: string, names: seq<string>, k: nat)
    requires k < |names|
    ensures MissingList(prefix, names)[k] == Missing(prefix + "." + names[k])
  {
    if k > 0 {
      MissingListAt(prefix, names[1..], k - 1);
    }
  }

  lemma {:induction false} AbsentSplit(fields: seq<string>, k: nat, m: map<string, Value>)
    requires k < |fields|
    ensures Absent(fields[k..], m) == (if fields[k] in m then [] else [fields[k]]) + Absent(fields[k + 1..], m)
  {
    assert fields[k..][1..] == fields[k + 1..];
  }

  /** On a dictionary item the required-field loop reports exactly the absent fields, in order. */
  lemma {:induction false} MissingFromDict(prefix: string, fields: seq<string>, m: map<string, Value>, k: nat,
                                           acc: seq<ConfigError>)
    requires k <= |fields|
    ensures MissingFrom(prefix, fields, Dict(m), k, acc) == Ok(acc + MissingList(prefix, Absent(fields[k..], m)))
    decreases |fields| - k
  {
    if k == |fields| {
      assert fields[k..] == [];
      assert acc + [] == acc;
    } else {
      AbsentSplit(fields, k, m);
      var rest := Absent(fields[k + 1..], m);
      if fields[k] in m {
        assert FieldErrors(prefix, fields[k], Dict(m)) == Ok([]);
        assert acc + [] == acc;
        MissingFromDict(prefix, fields, m, k + 1, acc);
        assert Absent(fields[k..], m) == rest;
      } else {
        var e := Missing(prefix + "." + fields[k]);
        assert FieldErrors(prefix, fields[k], Dict(m)) == Ok([e]);
        MissingFromDict(prefix, fields, m, k + 1, acc + [e]);
        assert Absent(fields[k..], m) == [fields[k]] + rest;
        assert ([fields[k]] + rest)[1..] == rest;
        assert MissingList(prefix, [fields[k]] + rest) == [e] + MissingList(prefix, rest);
        assert acc + [e] + MissingList(prefix, rest) == acc + ([e] + MissingList(prefix, rest));
      }
    }
  }

  /** Each dictionary item missing required fields gets one `items[i].field` error per missing field. */
  lemma MissingFieldsReported(s: Section, i: nat, m: map<string, Value>)
    ensures ItemErrors(s, i, Dict(m)).Ok?
    ensures var errs := ItemErrors(s, i, Dict(m)).value;
      var missing := Absent(s.Required(), m);
      |missing| <= |errs| && errs[..|missing|] == MissingList(ItemPrefix(s, i), missing)
  {
    var prefix := ItemPrefix(s, i);
    MissingFromDict(prefix, s.Required(), m, 0, []);
    assert s.Required()[0..] == s.Required();
    OptionalsDict(prefix, s.Optional(), m);
  }

  /** The optional checks never raise on a dictionary item, and pass exactly when every present value is allowed. */
  lemma {:induction false} OptionalsDict(prefix: string, checks: seq<Check>, m: map<string, Value>)
    ensures OptionalsErrors(prefix, checks, Dict(m)).Ok?
    ensures OptionalsErrors(prefix, checks, Dict(m)).value == [] <==>
      forall k :: 0 <= k < |checks| && checks[k].Key() in m ==> checks[k].ValueOk(m[checks[k].Key()])
  {
    if checks != [] {
      OptionalsDict(prefix, checks[1..], m);
      assert forall k :: 1 <= k < |checks| ==> checks[k] == checks[1..][k - 1];
    }
  }

  /** A present `ratio` must be a number from 0.0 to 1.0 inclusive; a present `method` must be linear, snn or spade. */
  lemma BlendOptionalFields(i: nat, m: map<string, Value>)
    ensures OptionalsErrors(ItemPrefix(Blends, i), Blends.Optional(), Dict(m)) == Ok([]) <==>
      ("ratio" in m ==> IsNumber(m["ratio"]) && 0.0 <= NumValue(m["ratio"]) <= 1.0)
      && ("method" in m ==> m["method"] in [Str("linear"), Str("snn"), Str("spade")])
  {
    OptionalsDict(ItemPrefix(Blends, i), Blends.Optional(), m);
    assert Blends.Optional()[0] == Ratio && Blends.Optional()[1] == Method;
  }

  /** A present `ratio` that is not a number is reported with its type name; one out of range with its value. */
  lemma RatioErrorsReported(i: nat, m: map<string, Value>)
    requires "ratio" in m
    ensures var errs := OptionalErrors(ItemPrefix(Blends, i), Ratio, Dict(m));
      var field := ItemPrefix(Blends, i) + ".ratio";
      var v := m["ratio"];
      && (!IsNumber(v) ==> errs == Ok([ConfigError(field, "Must be a number", Str(TypeName(v)))]))
      && (IsNumber(v) && !(0.0 <= NumValue(v) <= 1.0) ==> errs == Ok([ConfigError(field, "Must be between 0.0 and 1.0", v)]))
  {
    var prefix := ItemPrefix(Blends, i);
    assert In("ratio", Dict(m)) == Ok(true);
    assert Subscript(Dict(m), "ratio") == Ok(m["ratio"]);
    assert OptionalErrors(prefix, Ratio, Dict(m)) == Ok(Ratio.Errors(prefix, m["ratio"]));
    assert prefix + "." + Ratio.Key() == prefix + ".ratio";
  }

  /** A present download `format` must be fbx or bvh, an upload `folder` a string. */
  lemma FormatAndFolder(i: nat, m: map<string, Value>)
    ensures OptionalsErrors(ItemPrefix(Downloads, i), Downloads.Optional(), Dict(m)) == Ok([]) <==>
      ("format" in m ==> m["format"] in [Str("fbx"), Str("bvh")])
    ensures OptionalsErrors(ItemPrefix(Uploads, i), Uploads.Optional(), Dict(m)) == Ok([]) <==>
      ("folder" in m ==> m["folder"].Str?)
  {
    OptionalsDict(ItemPrefix(Downloads, i), Downloads.Optional(), m);
    OptionalsDict(ItemPrefix(Uploads, i), Uploads.Optional(), m);
    assert Downloads.Optional()[0] == Format;
    assert Uploads.Optional()[0] == Folder;
  }

  /** full_pipeline reports one error per missing section, and nothing else. */
  lemma FullPipelineMissing(config: map<string, Value>)
    ensures |FullPipelineErrors(config)| ==
      (if "download" in config then 0 else 1) + (if "blend" in config then 0 else 1) + (if "upload" in config then 0 else 1)
    ensures forall f :: f in ["download", "blend", "upload"] && f !in config ==>
      ConfigError(f, "Missing required field for full_pipeline", Null) in FullPipelineErrors(config)
  {
  }

  /** A string item containing the required field names passes the membership checks: `in` is a substring test there. */
  lemma StringItemPassesRequiredFields()
    ensures ItemErrors(Uploads, 0, Str("file")) == Ok([])
  {
    var item := Str("file");
    var prefix := ItemPrefix(Uploads, 0);
    assert In("file", item) == Ok(true) by {
      assert OccursAt("file", "file", 0);
    }
    assert FieldErrors(prefix, "file", item) == Ok([]);
    var fields := Uploads.Required();
    assert fields == ["file"] && fields[0] == "file" && |fields| == 1;
    var none: seq<ConfigError> := [];
    assert none + none == none;
    assert MissingFrom(prefix, fields, item, 1, none) == Ok(none);
    assert MissingFrom(prefix, fields, item, 0, []) == Ok([]);
    assert In(Folder.Key(), item) == Ok(false) by {
      assert !Contains("file", "folder") by { NotContainsChar("file", "folder", 1, 4); }
    }
    assert OptionalErrors(prefix, Folder, item) == Ok([]);
    assert Uploads.Optional()[1..] == [];
    assert OptionalsErrors(prefix, Uploads.Optional(), item) == Ok([]);
  }

  /** An item that is not a container makes the validator raise `TypeError`. */
  lemma NonContainerItemRaises(config: map<string, Value>, s: Section)
    requires s.Key() in config && config[s.Key()].List? && |config[s.Key()].items| > 0
    requires !(config[s.Key()].items[0].Dict? || config[s.Key()].items[0].List? || config[s.Key()].items[0].Str?)
    ensures SectionErrors(config, s).Raised? && SectionErrors(config, s).exc.kind == TypeError
  {
    var items := config[s.Key()].items;
    assert s.Required()[0] in s.Required();
  }

  // ---------------------------------------------------------------------------
  // What a valid configuration is
  // ---------------------------------------------------------------------------

  /** A dictionary item holds every required field and only allowed optional values. */
  predicate ItemOk(s: Section, m: map<string, Value>) {
    (forall k :: 0 <= k < |s.Required()| ==> s.Required()[k] in m)
    && (forall k :: 0 <= k < |s.Optional()| && s.Optional()[k].Key() in m ==> s.Optional()[k].ValueOk(m[s.Optional()[k].Key()]))
  }

  predicate SectionOk(config: map<string, Value>, s: Section) {
    s.Key() in config && config[s.Key()].List? && config[s.Key()].items != []
    && forall k :: 0 <= k < |config[s.Key()].items| ==>
      config[s.Key()].items[k].Dict? && ItemOk(s, config[s.Key()].items[k].entries)
  }

  /** The configurations the schema describes. */
  predicate WellFormed(config: map<string, Value>) {
    && "version" in config && config["version"] == Str("1.0")
    && "workflow" in config
    && var w := config["workflow"];
      if w == Str("blend_batch") then SectionOk(config, Blends)
      else if w == Str("download_batch") then SectionOk(config, Downloads)
      else if w == Str("upload_batch") then SectionOk(config, Uploads)
      else w == Str("full_pipeline") && "download" in config && "blend" in config && "upload" in config
  }

  /** The items of the section the workflow names are dictionaries. */
  predicate ItemsAreDicts(config: map<string, Value>) {
    forall s: Section ::
      (s.Key() in config && config[s.Key()].List? && "workflow" in config && config["workflow"] == Str(s.Workflow()))
      ==> forall k :: 0 <= k < |config[s.Key()].items| ==> config[s.Key()].items[k].Dict?
  }

  lemma ItemErrorsDict(s: Section, i: nat, m: map<string, Value>)
    ensures ItemErrors(s, i, Dict(m)).Ok?
    ensures ItemErrors(s, i, Dict(m)) == Ok([]) <==> ItemOk(s, m)
  {
    var prefix := ItemPrefix(s, i);
    MissingFromDict(prefix, s.Required(), m, 0, []);
    assert s.Required()[0..] == s.Required();
    OptionalsDict(prefix, s.Optional(), m);
    AbsentEmpty(s.Required(), m);
  }

  lemma {:induction false} ItemsFromDicts(s: Section, items: seq<Value>, i: nat, acc: seq<ConfigError>)
    requires i <= |items|
    requires forall k :: 0 <= k < |items| ==> items[k].Dict?
    ensures ItemsFrom(s, items, i, acc).Ok?
    ensures ItemsFrom(s, items, i, acc) == Ok([]) <==>
      acc == [] && forall k :: i <= k < |items| ==> ItemOk(s, items[k].entries)
    decreases |items| - i
  {
    if i < |items| {
      var m := items[i].entries;
      assert items[i] == Dict(m);
      ItemErrorsDict(s, i, m);
      var x := ItemErrors(s, i, items[i]).value;
      assert x == [] <==> ItemOk(s, m);
      assert ItemsFrom(s, items, i, acc) == ItemsFrom(s, items, i + 1, acc + x);
      ItemsFromDicts(s, items, i + 1, acc + x);
      assert acc + x == [] <==> acc == [] && x == [];
      assert (forall k :: i <= k < |items| ==> ItemOk(s, items[k].entries))
        <==> ItemOk(s, m) && forall k :: i + 1 <= k < |items| ==> ItemOk(s, items[k].entries);
    }
  }

  lemma SectionErrorsDicts(config: map<string, Value>, s: Section)
    requires s.Key() in config && config[s.Key()].List?
    requires forall k :: 0 <= k < |config[s.Key()].items| ==> config[s.Key()].items[k].Dict?
    ensures SectionErrors(config, s).Ok?
    ensures SectionErrors(config, s) == Ok([]) <==> SectionOk(config, s)
  {
    var items := config[s.Key()].items;
    var head := if items == [] then [ConfigError(s.Key(), "Must contain at least one " + s.Noun(), Null)] else [];
    ItemsFromDicts(s, items, 0, head);
  }

  lemma SectionNotOkHasErrors(config: map<string, Value>, s: Section)
    requires !(s.Key() in config && config[s.Key()].List?)
    ensures SectionErrors(config, s) != Ok([]) && !SectionOk(config, s)
  {
  }

  /**
   * When the items of the section being validated are dictionaries, the
   * validator returns no errors exactly for the well-formed configurations.
   */
  lemma NoErrorsIffWellFormed(config: map<string, Value>)
    requires ItemsAreDicts(config)
    ensures ConfigErrors(config) == Ok([]) <==> WellFormed(config)
  {
    if "workflow" in config {
      var w := config["workflow"];
      var ss := [Blends, Downloads, Uploads];
      forall s | s in ss && w == Str(s.Workflow())
        ensures SectionErrors(config, s) == Ok([]) <==> SectionOk(config, s)
      {
        if s.Key() in config && config[s.Key()].List? {
          SectionErrorsDicts(config, s);
        } else {
          SectionNotOkHasErrors(config, s);
        }
      }
      assert w == Str("blend_batch") ==> w == Str(ss[0].Workflow());
      assert w == Str("download_batch") ==> w == Str(ss[1].Workflow());
      assert w == Str("upload_batch") ==> w == Str(ss[2].Workflow());
    }
  }

  // ---------------------------------------------------------------------------
  // The example templates of get_config_examples, as a YAML parser reads them
  // ---------------------------------------------------------------------------

  function BlendBatchExample(): map<string, Value> {
    map[
      "version" := Str("1.0"),
      "workflow" := Str("blend_batch"),
      "blends" := List([
        Dict(map["name" := Str("walk_to_run"), "input1" := Str("seed/walk.bvh"), "input2" := Str("seed/run.bvh"),
                 "ratio" := Float(0.5), "method" := Str("linear"), "output" := Str("blend/walk_run.bvh")]),
        Dict(map["name" := Str("idle_to_jump"), "input1" := Str("seed/idle.bvh"), "input2" := Str("seed/jump.bvh"),
                 "ratio" := Float(0.3), "method" := Str("snn"), "output" := Str("blend/idle_jump.bvh")])
      ]),
      "upload" := Dict(map["folder" := Str("blend/"),
                           "metadata" := Dict(map["source" := Str("mixamo"), "pipeline" := Str("batch")])])
    ]
  }

  function DownloadBatchExample(): map<string, Value> {
    map[
      "version" := Str("1.0"),
      "workflow" := Str("download_batch"),
      "downloads" := List([
        Dict(map["animation_id" := Str("123456"), "output" := Str("seed/walk.fbx"), "format" := Str("fbx")]),
        Dict(map["animation_id" := Str("123457"), "output" := Str("seed/run.fbx"), "format" := Str("fbx")]),
        Dict(map["animation_id" := Str("123458"), "output" := Str("seed/jump.bvh"), "format" := Str("bvh")])
      ])
    ]
  }

  function UploadBatchExample(): map<string, Value> {
    map[
      "version" := Str("1.0"),
      "workflow" := Str("upload_batch"),
      "uploads" := List([
        Dict(map["file" := Str("blend/walk_run.bvh"), "folder" := Str("blend/"),
                 "metadata" := Dict(map["source" := Str("mixamo"), "method" := Str("linear")])]),
        Dict(map["file" := Str("blend/idle_jump.bvh"), "folder" := Str("blend/"),
                 "metadata" := Dict(map["source" := Str("mixamo"), "method" := Str("snn")])])
      ])
    ]
  }

  /** `get_config_examples()`: template name to parsed template. */
  function ConfigExamples(): map<string, map<string, Value>> {
    map["blend_batch" := BlendBatchExample(), "download_batch" := DownloadBatchExample(),
        "upload_batch" := UploadBatchExample()]
  }

  /** Every example template validates with zero errors. */
  lemma ExamplesValid()
    ensures forall name :: name in ConfigExamples() ==> ConfigErrors(ConfigExamples()[name]) == Ok([])
  {
    BlendExampleValid();
    DownloadExampleValid();
    UploadExampleValid();
  }

  lemma BlendExampleValid()
    ensures ConfigErrors(BlendBatchExample()) == Ok([])
  {
    BlendExampleShape();
    NoErrorsIffWellFormed(BlendBatchExample());
  }

  lemma BlendExampleShape()
    ensures ItemsAreDicts(BlendBatchExample()) && SectionOk(BlendBatchExample(), Blends)
  {
    var c := BlendBatchExample();
    var items := c["blends"].items;
    assert |items| == 2;
    assert ItemOk(Blends, items[0].entries);
    assert ItemOk(Blends, items[1].entries);
  }

  lemma DownloadExampleValid()
    ensures ConfigErrors(DownloadBatchExample()) == Ok([])
  {
    var c := DownloadBatchExample();
    assert ItemsAreDicts(c);
    assert SectionOk(c, Downloads);
    NoErrorsIffWellFormed(c);
  }

  lemma UploadExampleValid()
    ensures ConfigErrors(UploadBatchExample()) == Ok([])
  {
    var c := UploadBatchExample();
    assert ItemsAreDicts(c);
    assert SectionOk(c, Uploads);
    NoErrorsIffWellFormed(c);
  }
}
