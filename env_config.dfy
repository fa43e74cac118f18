/** The Lambda's configuration, read from its environment
    (`fulfillment/EnvConfig.java`). The environment is a map from variable
    name to value; a name missing from the map is an unset variable. */
module EnvConfig {
  import opened Outcomes

  type Env = map<string, string>

  /** An EC2 tag (key, value) naming the worker fleet. */
  datatype Tag = Tag(key: string, value: string)

  datatype EnvConfig = EnvConfig(
    commandOutputS3Bucket: string,
    commandRecordS3Bucket: string,
    instanceTag: Tag,
    terraformArtifactS3Bucket: string)

  const TagKeyVar: string := "TERRAFORM_SERVER_TAG_KEY"
  const TagValueVar: string := "TERRAFORM_SERVER_TAG_VALUE"
  const CommandOutputBucketVar: string := "COMMAND_OUTPUT_S3_BUCKET"
  const SsmCommandBucketVar: string := "TERRAFORM_SSM_COMMAND_BUCKET"
  const ArtifactBucketVar: string := "WHITELISTED_TERRAFORM_ARTIFACT_BUCKET"

  const DefaultTagKey: string := "terraform-server-tag-key"
  const DefaultTagValue: string := "terraform-server-tag-value"

  function MissingEnvMessage(name: string): string {
    "Required environment variable is missing from Lambda: " + name
  }

  /** The variable's value verbatim, or an error naming it when unset. */
  function GetRequiredEnv(env: Env, name: string): (r: Result<string>)
    ensures r.Ok? <==> name in env
    ensures r.Ok? ==> r.value == env[name]
    ensures r.Err? ==> r.error == Runtime(MissingEnvMessage(name))
  {
    if name in env then Ok(env[name]) else Err(Runtime(MissingEnvMessage(name)))
  }

  /** Key and value each fall back to their default on their own. */
  function GetInstanceTagFromEnv(env: Env): (t: Tag)
    ensures TagKeyVar in env ==> t.key == env[TagKeyVar]
    ensures TagKeyVar !in env ==> t.key == DefaultTagKey
    ensures TagValueVar in env ==> t.value == env[TagValueVar]
    ensures TagValueVar !in env ==> t.value == DefaultTagValue
  {
    Tag(if TagKeyVar in env then env[TagKeyVar] else DefaultTagKey,
        if TagValueVar in env then env[TagValueVar] else DefaultTagValue)
  }

  /** The three bucket variables are required and read in constructor-argument
      order; the command-record bucket is `TERRAFORM_SSM_COMMAND_BUCKET`. */
  function FromEnvironmentVariables(env: Env): (r: Result<EnvConfig>)
    ensures r.Ok? <==> CommandOutputBucketVar in env && SsmCommandBucketVar in env && ArtifactBucketVar in env
    ensures r.Ok? ==> r.value.commandOutputS3Bucket == env[CommandOutputBucketVar]
    ensures r.Ok? ==> r.value.commandRecordS3Bucket == env[SsmCommandBucketVar]
    ensures r.Ok? ==> r.value.terraformArtifactS3Bucket == env[ArtifactBucketVar]
    ensures r.Ok? ==> r.value.instanceTag == GetInstanceTagFromEnv(env)
    ensures CommandOutputBucketVar !in env ==> r == Err(Runtime(MissingEnvMessage(CommandOutputBucketVar)))
    ensures CommandOutputBucketVar in env && SsmCommandBucketVar !in env ==>
      r == Err(Runtime(MissingEnvMessage(SsmCommandBucketVar)))
    ensures CommandOutputBucketVar in env && SsmCommandBucketVar in env && ArtifactBucketVar !in env ==>
      r == Err(Runtime(MissingEnvMessage(ArtifactBucketVar)))
  {
    var output :- GetRequiredEnv(env, CommandOutputBucketVar);
    var record :- GetRequiredEnv(env, SsmCommandBucketVar);
    var tag := GetInstanceTagFromEnv(env);
    var artifacts :- GetRequiredEnv(env, ArtifactBucketVar);
    Ok(EnvConfig(output, record, tag, artifacts))
  }
}
