/** The worker's configuration file (`sc_terraform_wrapper/sc_config.py`).
    Reading and decoding the file are not modelled: the decoded object is the
    input, its values taken as text. */
module ScConfig {
  import opened Outcomes
  import opened Strings

  const ConfigFile: string := "/usr/local/var/sc-config.json"

  /** The Terraform state bucket, the region of the buckets, and the
      directory that holds the workspaces. */
  const RequiredConfigFields: seq<string> := ["bucket", "region", "root-workspace-path"]

  /** The required keys absent from `config`, in the order they are listed. */
  function MissingFields(required: seq<string>, config: map<string, string>): (missing: seq<string>)
    ensures |missing| <= |required|
    ensures forall i :: 0 <= i < |missing| ==> missing[i] in required && missing[i] !in config
    ensures forall i :: 0 <= i < |required| && required[i] !in config ==> required[i] in missing
  {
    if |required| == 0 then []
    else
      var rest := MissingFields(required[1..], config);
      assert forall i :: 1 <= i < |required| ==> required[i] == required[1..][i - 1];
      if required[0] in config then rest else [required[0]] + rest
  }

  /** The list keeps the declaration order: the absent keys of the first
      part come before those of the rest. */
  lemma {:induction false} MissingFieldsAppend(a: seq<string>, b: seq<string>, config: map<string, string>)
    ensures MissingFields(a + b, config) == MissingFields(a, config) + MissingFields(b, config)
    decreases |a|
  {
    if |a| > 0 {
      assert (a + b)[0] == a[0];
      assert (a + b)[1..] == a[1..] + b;
      MissingFieldsAppend(a[1..], b, config);
    } else {
      assert a + b == b;
    }
  }

  /** The absent keys of the configuration file, in the order bucket,
      region, root-workspace-path. */
  lemma RequiredMissingInOrder(config: map<string, string>)
    ensures MissingFields(RequiredConfigFields, config)
            == (if "bucket" in config then [] else ["bucket"])
               + (if "region" in config then [] else ["region"])
               + (if "root-workspace-path" in config then [] else ["root-workspace-path"])
  {
    assert RequiredConfigFields == ["bucket"] + (["region"] + ["root-workspace-path"]);
    MissingFieldsAppend(["bucket"], ["region"] + ["root-workspace-path"], config);
    MissingFieldsAppend(["region"], ["root-workspace-path"], config);
  }

  function MissingFieldsMessage(missing: seq<string>): string {
    "Missing required fields " + PyList(missing) + " in config at location " + ConfigFile
  }

  /** `load_config`: the configuration unchanged when every required key is
      present, otherwise an error listing the absent ones. */
  function LoadConfig(config: map<string, string>): (r: Result<map<string, string>>)
    ensures r.Ok? <==> forall i :: 0 <= i < |RequiredConfigFields| ==> RequiredConfigFields[i] in config
    ensures r.Ok? ==> r.value == config
    ensures r.Err? ==> r.error == PyException(MissingFieldsMessage(MissingFields(RequiredConfigFields, config)))
                       && |MissingFields(RequiredConfigFields, config)| > 0
  {
    var missing := MissingFields(RequiredConfigFields, config);
    if |missing| > 0 then
      assert missing[0] in RequiredConfigFields && missing[0] !in config;
      Err(PyException(MissingFieldsMessage(missing)))
    else
      Ok(config)
  }

  /** A loaded configuration has the three keys the worker reads. */
  lemma LoadedConfigHasFields(config: map<string, string>)
    requires LoadConfig(config).Ok?
    ensures "bucket" in config && "region" in config && "root-workspace-path" in config
  {
    assert RequiredConfigFields[0] == "bucket" && RequiredConfigFields[1] == "region"
      && RequiredConfigFields[2] == "root-workspace-path";
  }

  /** Extra keys neither help nor hurt. */
  lemma ExtraKeysIgnored(config: map<string, string>, key: string, value: string)
    requires key !in RequiredConfigFields
    ensures LoadConfig(config[key := value]).Ok? <==> LoadConfig(config).Ok?
  {
    assert forall i :: 0 <= i < |RequiredConfigFields| ==>
      (RequiredConfigFields[i] in config[key := value] <==> RequiredConfigFields[i] in config);
  }
}
