# Service Catalog Terraform reference architecture, modelled in Dafny

The reference architecture lets AWS Service Catalog products be provisioned
with Terraform. A CloudFormation custom resource in a spoke account sends its
create, update and delete events over SNS to a Lambda function in the hub
account. The Lambda checks each request, then either answers CloudFormation
itself or sends one SSM command to a Terraform worker instance. The command
runs the wrapper script `sc_terraform_wrapper`. The script validates the
request and builds a Terraform workspace from the artifact in S3. It runs
`terraform apply`, `destroy` or `plan`, tags the created resources, keeps an
AWS resource group for the stack, and posts the result to CloudFormation's
presigned response URL.

This project models both halves. It has one Dafny module per source file.

**The hub Lambda (Java).**
- `TerraformRequestHandler` models the request pipeline:
  - a strict parse, and a lenient one used only to report a parse failure;
  - field validation;
  - the cross-account check;
  - the SNS signature outcome;
  - the UPDATE-rollback answer;
  - the artifact bucket allow-list.
- `CommandSender` models the duplicate-dispatch check against the command
  ledger, the choice of worker, the output prefix, the nine-line script,
  the SSM send, the ledger write and the best-effort "exit 127" check.
- The ledger (`CommandRecordPersistence`), SSM, the callback endpoint and
  the EC2 and CloudFormation answers form a `World`. Pure step functions
  over the `World` specify each operation. The classes' methods are proved
  to do what those functions say.

**The worker wrapper (Python).**
- The modules cover:
  - request validation;
  - S3 URL parsing;
  - ARN splitting and generation;
  - reading ARNs and outputs from the Terraform state;
  - resource-group naming and the create/delete decisions;
  - tagging with bounded retries;
  - Terraform command selection;
  - presigned-URL expiry arithmetic;
  - the callback body;
  - the timeout response.
- A `Worker` object models the run of `__main__.py`. Each step reports the
  effects it had, as a list of actions. The run is proved to take only
  effects its plan permits:
  - tags are read first;
  - only Create and Update tag resources or create the group;
  - only Delete deletes it;
  - dry runs only plan;
  - the resource groups change exactly by the logged changes.

The outside world is given to the model, never computed by it:
- the AWS services' answers;
- Terraform's exit codes and output;
- the clock;
- random draws and UUIDs;
- the SHA-256 digest.

## Model

| member | source | states |
|---|---|---|
| Arn.ParseArn | TerraformScripts/sc_terraform_wrapper/arn.py:15-24 | parsing succeeds exactly when the text has at least four ':' (five fields); otherwise it fails with the list-index error; the parsed value keeps the text, and partition and service hold no ':' |
| Arn.StrRoundTrip | TerraformScripts/sc_terraform_wrapper/arn.py:26-27 | `str` of a parsed ARN is the text it was parsed from |
| Arn.ParseFields | TerraformScripts/sc_terraform_wrapper/arn.py:15-24 | for colon-free head, partition, service, region and account, parsing `head:p:s:r:a:suffix` gives back exactly those fields, and the suffix is everything after the fifth ':', colons included |
| Arn.RoundTrip | TerraformScripts/sc_terraform_wrapper/arn.py:16-24 | when there are five or more ':', the first field, the four named fields and the suffix joined by ':' give the original ARN |
| Arn.FiveFieldsEmptySuffix | TerraformScripts/sc_terraform_wrapper/arn.py:23-24 | with exactly four ':', the resource suffix is empty |
| ArnFormat.FormatSuffixAtEnd | TerraformScripts/sc_terraform_wrapper/arn_format.py:33 | formatting a suffix format whose only `{}` comes at the end appends the value to the text before it |
| ArnFormat.GetArn | TerraformScripts/sc_terraform_wrapper/arn_format.py:24-35 | the built ARN always starts with `arn:` |
| ArnFormat.GetArnParses | TerraformScripts/sc_terraform_wrapper/arn_format.py:24-35 | parsing a built ARN reads back the partition, the service, the region (empty when regionless), the account (empty when accountless) and the formatted suffix |
| ArnFormat.GetArnPrefixColons | TerraformScripts/sc_terraform_wrapper/arn_format.py:15-32 | the prefix before the suffix holds exactly five ':' |
| ArnParser.Field | TerraformCustomResourceHandler/src/main/java/com/amazon/servicecatalog/terraform/customresource/util/ArnParser.java:21-35 | field `index` of the ':'-split exists exactly when the text has at least `index` colons; a field never holds ':'; a missing field raises the list's index error naming the index and the number of fields |
| ArnParser.GetRegion | TerraformCustomResourceHandler/src/main/java/com/amazon/servicecatalog/terraform/customresource/util/ArnParser.java:25-27 | succeeds exactly when there are at least three ':'; the region holds no ':' |
| ArnParser.GetAccountId | TerraformCustomResourceHandler/src/main/java/com/amazon/servicecatalog/terraform/customresource/util/ArnParser.java:29-31 | succeeds exactly when there are at least four ':'; the account holds no ':' |
| ArnParser.GetRelativeId | TerraformCustomResourceHandler/src/main/java/com/amazon/servicecatalog/terraform/customresource/util/ArnParser.java:33-35 | succeeds exactly when there are at least five ':'; the result holds no ':' |
| ArnParser.FieldOfJoin | TerraformCustomResourceHandler/src/main/java/com/amazon/servicecatalog/terraform/customresource/util/ArnParser.java:21-35 | reading field `index` of colon-free fields joined by ':' gives that field, and an index past the end gives the index error with the field count |
| ArnParser.EmptyFieldsPreserved | TerraformCustomResourceHandler/src/main/java/com/amazon/servicecatalog/terraform/customresource/util/ArnParser.java:21 | for colon-free partition, service and id, `arn:<p>:<s>:::<id>` reads region "", account "" and relative id `<id>`: empty fields are kept |
| ArnParser.RelativeIdDropsFurtherFields | TerraformCustomResourceHandler/src/main/java/com/amazon/servicecatalog/terraform/customresource/util/ArnParser.java:33-35 | only field 5 is returned: whatever follows a sixth ':' is dropped |
| CfnUrlParser.RawField | TerraformScripts/sc_terraform_wrapper/cfn_url_parser.py:9 | a field split at its first '=' is kept only with a non-empty value; the name then holds no '=', and name, '=' and value rebuild the field; a field without '=' is dropped |
| CfnUrlParser.FormDecode | TerraformScripts/sc_terraform_wrapper/cfn_url_parser.py:9 | text without '%' only has each '+' turned into a space; non-empty text decodes to non-empty text |
| CfnUrlParser.FieldPair | TerraformScripts/sc_terraform_wrapper/cfn_url_parser.py:9 | a field gives a pair exactly when its raw split is kept, and the pair's value is non-empty |
| CfnUrlParser.FieldPairOf | TerraformScripts/sc_terraform_wrapper/cfn_url_parser.py:9 | `name=value` with a '='-free name and a non-empty value gives the decoded name and value: each '+' a space, then UTF-8 unquoting |
| CfnUrlParser.BlankFieldDropped | TerraformScripts/sc_terraform_wrapper/cfn_url_parser.py:9 | `name=` gives no pair, as `parse_qs` drops blank values |
| CfnUrlParser.FieldPairs | TerraformScripts/sc_terraform_wrapper/cfn_url_parser.py:9 | at most as many pairs as fields, each with a non-empty value |
| CfnUrlParser.FieldPairsKept | TerraformScripts/sc_terraform_wrapper/cfn_url_parser.py:9 | the pairs are exactly the decoded kept fields: each pair is what some field decodes to, and every kept field's pair is among them |
| CfnUrlParser.FirstValue | TerraformScripts/sc_terraform_wrapper/cfn_url_parser.py:11-21 | a value is found exactly when some pair has the name, and the value found belongs to a pair with that name |
| CfnUrlParser.ParseInt | TerraformScripts/sc_terraform_wrapper/cfn_url_parser.py:14-21 | a failure is the `ValueError` for that text; a non-empty run of digits reads as its decimal value |
| CfnUrlParser.ParseIntOfIntToString | TerraformScripts/sc_terraform_wrapper/cfn_url_parser.py:14-21 | `int()` reads back the decimal text of every integer, negative ones included |
| CfnUrlParser.ParseIntOfNegative | TerraformScripts/sc_terraform_wrapper/cfn_url_parser.py:14-21 | a minus sign followed by digits reads as the negated value of the digits |
| CfnUrlParser.ParseIntOfPlus | TerraformScripts/sc_terraform_wrapper/cfn_url_parser.py:14-21 | a '+' followed by digits reads as the value of the digits |
| CfnUrlParser.TruncSeconds | TerraformScripts/sc_terraform_wrapper/cfn_url_parser.py:24 | for a non-negative span, truncation to whole seconds is integer division |
| CfnUrlParser.TruncSecondsMonotone | TerraformScripts/sc_terraform_wrapper/cfn_url_parser.py:24 | truncation toward zero keeps the order of its arguments, across zero too |
| CfnUrlParser.SecondsUntilExpiry | TerraformScripts/sc_terraform_wrapper/cfn_url_parser.py:8-27 | a URL with neither `Expires` nor both `X-Amz-Expires` and `X-Amz-Date` raises the unexpected-format exception; a readable `Expires` gives `Expires - now - 60` in whole seconds |
| CfnUrlParser.ExpiryFrom | TerraformScripts/sc_terraform_wrapper/cfn_url_parser.py:11-27 | the same two cases stated over the three looked-up fields |
| CfnUrlParser.ExpiryFromDecreases | TerraformScripts/sc_terraform_wrapper/cfn_url_parser.py:11-27 | on the looked-up fields, whether a time is computed does not depend on the clock, and a later clock never leaves more time |
| CfnUrlParser.ExpiryDecreasesWithTime | TerraformScripts/sc_terraform_wrapper/cfn_url_parser.py:8-27 | success does not depend on the clock, and a later clock never leaves more seconds |
| CfnUrlParser.ExpiresTakesPrecedence | TerraformScripts/sc_terraform_wrapper/cfn_url_parser.py:11-14 | when an `Expires` field is present, the result does not depend on the date parser (the `X-Amz-*` branch is not taken) |
| CfnUrlParser.SignedUrlWindow | TerraformScripts/sc_terraform_wrapper/cfn_url_parser.py:16-24 | for a signed URL with a readable date and duration, the result succeeds, and while the deadline has not passed it is the remaining whole seconds less 60 |
| CloudFormationFacade.DescribeStack | TerraformCustomResourceHandler/src/main/java/com/amazon/servicecatalog/terraform/customresource/facades/CloudFormationFacade.java:47-57 | succeeds exactly when the describe call returns a stack, with the first one; no stack raises the runtime error naming the stack id |
| CloudFormationFacade.IsStackInUpdateRollback | TerraformCustomResourceHandler/src/main/java/com/amazon/servicecatalog/terraform/customresource/facades/CloudFormationFacade.java:42-45 | true exactly when the first stack's status is UPDATE_ROLLBACK_IN_PROGRESS; no stack is the describe error |
| CloudFormationFacade.OnlyFirstStackCounts | TerraformCustomResourceHandler/src/main/java/com/amazon/servicecatalog/terraform/customresource/facades/CloudFormationFacade.java:56 | stacks after the first do not change the answer |
| CommandRecordPersistence.Key | TerraformCustomResourceHandler/src/main/java/com/amazon/servicecatalog/terraform/customresource/facades/CommandRecordPersistence.java:30-53 | the key is the physical resource id followed by `/tf-command-record`, and removing that suffix gives the id back |
| CommandRecordPersistence.RecordAt | TerraformCustomResourceHandler/src/main/java/com/amazon/servicecatalog/terraform/customresource/facades/CommandRecordPersistence.java:41-69 | no object at the key reads as no record (null); a record this class wrote reads back; any other object raises the runtime error quoting its text |
| CommandRecordPersistence.KeyInjective | TerraformCustomResourceHandler/src/main/java/com/amazon/servicecatalog/terraform/customresource/facades/CommandRecordPersistence.java:30 | distinct resource ids have distinct keys |
| CommandRecordPersistence.GetAfterPut | TerraformCustomResourceHandler/src/main/java/com/amazon/servicecatalog/terraform/customresource/facades/CommandRecordPersistence.java:41-60 | a get after a put for the same id returns the record just put |
| CommandRecordPersistence.PutLeavesOthers | TerraformCustomResourceHandler/src/main/java/com/amazon/servicecatalog/terraform/customresource/facades/CommandRecordPersistence.java:52-60 | a put for one id leaves the record of every other id as it was |
| CommandRecordPersistence.LastWriteWins | TerraformCustomResourceHandler/src/main/java/com/amazon/servicecatalog/terraform/customresource/facades/CommandRecordPersistence.java:59 | a second put for the same id replaces the first |
| CommandRecordPersistence.CommandRecordPersistence.GetCommandRecord | TerraformCustomResourceHandler/src/main/java/com/amazon/servicecatalog/terraform/customresource/facades/CommandRecordPersistence.java:41-50 | returns the ledger's reading of the current bucket contents |
| CommandRecordPersistence.CommandRecordPersistence.PutCommandRecord | TerraformCustomResourceHandler/src/main/java/com/amazon/servicecatalog/terraform/customresource/facades/CommandRecordPersistence.java:52-60 | S3's answer to the n-th put decides: when it accepts, the bucket holds the new record at the id's key and is otherwise unchanged; when it refuses, its exception escapes and the bucket is as it was; the put is counted either way |
| CommandSender.WrapperCommandQuoting | TerraformCustomResourceHandler/src/main/java/com/amazon/servicecatalog/terraform/customresource/fulfillment/CommandSender.java:39-78 | when no argument holds a single quote, the wrapper invocation splits at its quotes into the fixed text and exactly the five arguments, in order |
| CommandSender.WrapperCommandQuoteCount | TerraformCustomResourceHandler/src/main/java/com/amazon/servicecatalog/terraform/customresource/fulfillment/CommandSender.java:39-78 | the arguments are not escaped: the invocation holds ten quotes plus every quote inside an argument |
| CommandSender.OutputS3KeyPrefix | TerraformCustomResourceHandler/src/main/java/com/amazon/servicecatalog/terraform/customresource/fulfillment/CommandSender.java:102-108 | a built prefix ends with `/millis-requestType` |
| CommandSender.OutputPrefixOfStackArn | TerraformCustomResourceHandler/src/main/java/com/amazon/servicecatalog/terraform/customresource/fulfillment/CommandSender.java:102-108 | for a CloudFormation stack ARN the prefix is `account/region/stackName/millis-requestType` |
| CommandSender.ScriptLines | TerraformCustomResourceHandler/src/main/java/com/amazon/servicecatalog/terraform/customresource/fulfillment/CommandSender.java:80-90 | the script has nine lines: the bash header, `set -o pipefail`, the wrapper invocation first on line 5, the two `aws s3 mv` lines ending in the output and error locations, and `exit $status` |
| CommandSender.LedgerWrittenOnlyAfterSend | TerraformCustomResourceHandler/src/main/java/com/amazon/servicecatalog/terraform/customresource/fulfillment/CommandSender.java:60-100 | a send only appends calls; at most one command is sent and at most one ledger write made, and only after SSM accepted the send; the ledger changes only when SSM accepted the send and S3 the write, and then holds exactly that command id and the instance it went to |
| CommandSender.VerifyPreviousLeavesLedger | TerraformCustomResourceHandler/src/main/java/com/amazon/servicecatalog/terraform/customresource/fulfillment/CommandSender.java:129-153 | the previous-command check sends no command and leaves the ledger as it was |
| CommandSender.DispatchWritesAfterSend | TerraformCustomResourceHandler/src/main/java/com/amazon/servicecatalog/terraform/customresource/fulfillment/CommandSender.java:64-99 | after the check, at most one command is sent, and the ledger changes only to record a command SSM accepted |
| CommandSender.SendStepEffects | TerraformCustomResourceHandler/src/main/java/com/amazon/servicecatalog/terraform/customresource/fulfillment/CommandSender.java:94-99 | the send appends the command; a rejected send fails with SSM's error and changes nothing else; an accepted one makes one ledger write; a refused write fails with S3's error, the command sent and the ledger, queries and posts unchanged; an accepted write succeeds, records the id and instance, and is followed by exactly one status query about the command |
| CommandSender.BestEffortExtends | TerraformCustomResourceHandler/src/main/java/com/amazon/servicecatalog/terraform/customresource/fulfillment/CommandSender.java:110-127 | the best-effort check sends nothing and leaves the ledger as it was |
| CommandSender.AcceptedSendIsRecorded | TerraformCustomResourceHandler/src/main/java/com/amazon/servicecatalog/terraform/customresource/fulfillment/CommandSender.java:60-100 | when the check passes and SSM accepts, the command went to the instance the EC2 lookup chose and one ledger write is made; a refused write gives failure; an accepted one gives success, and the ledger then reads back that command id and instance |
| CommandSender.UnrecordedSendFails | TerraformCustomResourceHandler/src/main/java/com/amazon/servicecatalog/terraform/customresource/fulfillment/CommandSender.java:94-99 | an accepted send whose ledger write S3 refuses fails with S3's error, although the command was sent; the ledger keeps its earlier reading for the id, and no status query follows |
| CommandSender.NoRecordNoStatusQuery | TerraformCustomResourceHandler/src/main/java/com/amazon/servicecatalog/terraform/customresource/fulfillment/CommandSender.java:130-134 | with no ledger record no previous command is queried; the only query is the best-effort one about the new command |
| CommandSender.StaleRecordProceeds | TerraformCustomResourceHandler/src/main/java/com/amazon/servicecatalog/terraform/customresource/fulfillment/CommandSender.java:147-152 | when SSM no longer knows the recorded invocation, the dispatch goes on exactly as if no check had happened, after the one query |
| CommandSender.InFlightRecordStillDispatches | TerraformCustomResourceHandler/src/main/java/com/amazon/servicecatalog/terraform/customresource/fulfillment/CommandSender.java:60-146 | a recorded command still Pending, Delayed, Cancelling or InProgress gets a FAILED callback naming it, and then the new command is sent anyway |
| CommandSender.FinishedRecordProceeds | TerraformCustomResourceHandler/src/main/java/com/amazon/servicecatalog/terraform/customresource/fulfillment/CommandSender.java:140-146 | a recorded command in any other status lets the dispatch go on with no callback |
| CommandSender.QueryErrorStops | TerraformCustomResourceHandler/src/main/java/com/amazon/servicecatalog/terraform/customresource/fulfillment/CommandSender.java:139-153 | any other status-query error ends the request with that error: nothing sent, ledger and callbacks unchanged |
| CommandSender.BestEffortPostsOnlyOnMissingScript | TerraformCustomResourceHandler/src/main/java/com/amazon/servicecatalog/terraform/customresource/fulfillment/CommandSender.java:110-127 | the check queries the new command once and posts one FAILED callback exactly when SSM answers FAILED with code 127, and otherwise posts nothing; no error escapes it |
| CommandSender.SentCommandShape | TerraformCustomResourceHandler/src/main/java/com/amazon/servicecatalog/terraform/customresource/fulfillment/CommandSender.java:64-96 | the sent command goes to the output bucket with SSM output under `prefix/ssm_output`, has nine lines, and line 5 starts with the wrapper invocation over the serialized request, the bucket, the two keys and the external id |
| CommandSender.CommandSender.PostFailure | TerraformCustomResourceHandler/src/main/java/com/amazon/servicecatalog/terraform/customresource/fulfillment/CommandSender.java:122-145 | the new state and outcome are those of the FAILED post |
| CommandSender.CommandSender.VerifyPreviousCommandCompletion | TerraformCustomResourceHandler/src/main/java/com/amazon/servicecatalog/terraform/customresource/fulfillment/CommandSender.java:129-153 | the new state and outcome are those of the previous-command check |
| CommandSender.CommandSender.BestEffortCheckWhetherCommandIsNotFound | TerraformCustomResourceHandler/src/main/java/com/amazon/servicecatalog/terraform/customresource/fulfillment/CommandSender.java:110-127 | the new state is that of the best-effort check |
| CommandSender.CommandSender.SendCommand | TerraformCustomResourceHandler/src/main/java/com/amazon/servicecatalog/terraform/customresource/fulfillment/CommandSender.java:60-100 | the new state and outcome are those of the whole send step, a refused ledger write included |
| CommandSender.CommandSender.Send | TerraformCustomResourceHandler/src/main/java/com/amazon/servicecatalog/terraform/customresource/fulfillment/CommandSender.java:94-99 | the send, the ledger write and the best-effort check change the services and give the outcome exactly as the send step after the lookups does |
| ResponsePoster.ReplyOutcome | TerraformCustomResourceHandler/src/main/java/com/amazon/servicecatalog/terraform/customresource/ResponsePoster.java:64-76 | succeeds exactly on status 200; any other code raises the runtime error naming the code and the URL, and a transport failure the "Unable to post" error; no retry |
| ResponsePoster.CallbackPut | TerraformCustomResourceHandler/src/main/java/com/amazon/servicecatalog/terraform/customresource/ResponsePoster.java:37-60 | the PUT goes to the request's response URL with Content-Type suppressed and carries the response built for the request, status and reason |
| ResponsePoster.ResponsePoster.PostResponse | TerraformCustomResourceHandler/src/main/java/com/amazon/servicecatalog/terraform/customresource/ResponsePoster.java:54-77 | exactly one PUT is appended, and the outcome is what the endpoint's answer to it means |
| ResponsePoster.ResponsePoster.PostSuccess | TerraformCustomResourceHandler/src/main/java/com/amazon/servicecatalog/terraform/customresource/ResponsePoster.java:37-43 | one SUCCESS PUT with an empty reason is appended |
| ResponsePoster.ResponsePoster.PostFailure | TerraformCustomResourceHandler/src/main/java/com/amazon/servicecatalog/terraform/customresource/ResponsePoster.java:45-52 | one FAILED PUT with exactly the given reason is appended |
| CustomResourceRequest.DerivePhysicalResourceId | TerraformCustomResourceHandler/src/main/java/com/amazon/servicecatalog/terraform/customresource/model/CustomResourceRequest.java:71-78 | derivation fails exactly when the stack id's last ':'-field has fewer than three '/'-parts, with an index error |
| CustomResourceRequest.StackRelativeIdParts | TerraformCustomResourceHandler/src/main/java/com/amazon/servicecatalog/terraform/customresource/model/CustomResourceRequest.java:74-77 | `stack/name/uuid` splits on '/' into `stack`, the name and the uuid |
| CustomResourceRequest.DerivedIdOfStackArn | TerraformCustomResourceHandler/src/main/java/com/amazon/servicecatalog/terraform/customresource/model/CustomResourceRequest.java:71-78 | for a stack ARN ending in `stack/name/uuid`, the derived id is `name-logicalResourceId-uuid` |
| CustomResourceRequest.NewRequest | TerraformCustomResourceHandler/src/main/java/com/amazon/servicecatalog/terraform/customresource/model/CustomResourceRequest.java:50-82 | a missing identifying field raises NullPointerException; then a supplied physical id is kept and a missing one derived (its error propagates); then missing properties raise NullPointerException; otherwise every field is carried over and the old properties may be absent |
| CustomResourceResponse.BuilderFor | TerraformCustomResourceHandler/src/main/java/com/amazon/servicecatalog/terraform/customresource/model/CustomResourceResponse.java:36-42 | the builder starts with the request's stack, request, physical and logical ids, and nothing else set |
| CustomResourceResponse.Build | TerraformCustomResourceHandler/src/main/java/com/amazon/servicecatalog/terraform/customresource/model/CustomResourceResponse.java:24-34 | building succeeds exactly when the six non-null fields are set, and then copies every field; an unset status fails first |
| CustomResourceResponse.BuildForRequest | TerraformCustomResourceHandler/src/main/java/com/amazon/servicecatalog/terraform/customresource/model/CustomResourceResponse.java:36-42 | a builder from a request plus a status and a reason always builds, with the request's four ids, no NoEcho and no data |
| CustomResourceResponse.ResponseFor | TerraformCustomResourceHandler/src/main/java/com/amazon/servicecatalog/terraform/customresource/ResponsePoster.java:38-50 | the callback body is the built response: the request's ids, the given status and reason, no NoEcho and no data |
| Ec2Facade.DescribeFilters | TerraformCustomResourceHandler/src/main/java/com/amazon/servicecatalog/terraform/customresource/facades/Ec2Facade.java:32-43 | the request has two filters: `tag:<key>` with the tag's value, then the running-state filter |
| Ec2Facade.DescribeFiltersSelect | TerraformCustomResourceHandler/src/main/java/com/amazon/servicecatalog/terraform/customresource/facades/Ec2Facade.java:32-43 | an instance passes both filters exactly when it carries the tag value and is running |
| Ec2Facade.Flatten | TerraformCustomResourceHandler/src/main/java/com/amazon/servicecatalog/terraform/customresource/facades/Ec2Facade.java:48-51 | an id is in the flattened list exactly when some reservation holds an instance with that id |
| Ec2Facade.Ids | TerraformCustomResourceHandler/src/main/java/com/amazon/servicecatalog/terraform/customresource/facades/Ec2Facade.java:50 | one id per instance, in order |
| Ec2Facade.GetInstanceId | TerraformCustomResourceHandler/src/main/java/com/amazon/servicecatalog/terraform/customresource/facades/Ec2Facade.java:41-66 | succeeds exactly when some candidate exists (a null reservation list has none), and the chosen id is the candidate at the drawn index; no candidate raises the runtime error naming the tag key and value |
| EnvConfig.GetRequiredEnv | TerraformCustomResourceHandler/src/main/java/com/amazon/servicecatalog/terraform/customresource/fulfillment/EnvConfig.java:47-53 | succeeds exactly when the variable is set, with its value verbatim; unset raises the runtime error naming it |
| EnvConfig.GetInstanceTagFromEnv | TerraformCustomResourceHandler/src/main/java/com/amazon/servicecatalog/terraform/customresource/fulfillment/EnvConfig.java:55-60 | the tag key and value each come from their variable when set and fall back to their own default otherwise |
| EnvConfig.FromEnvironmentVariables | TerraformCustomResourceHandler/src/main/java/com/amazon/servicecatalog/terraform/customresource/fulfillment/EnvConfig.java:40-45 | succeeds exactly when the three bucket variables are set; the command-record bucket is TERRAFORM_SSM_COMMAND_BUCKET; the first missing variable in constructor order is the one reported |
| SsmFacade.SsmFacade.SendCommand | TerraformCustomResourceHandler/src/main/java/com/amazon/servicecatalog/terraform/customresource/facades/SsmFacade.java:47-75 | one send is appended with the script, the instance and the output location; no query is made; the result is the service's answer to that send |
| SsmFacade.SsmFacade.GetCommand | TerraformCustomResourceHandler/src/main/java/com/amazon/servicecatalog/terraform/customresource/facades/SsmFacade.java:77-82 | one query for the (command, instance) pair is appended; nothing is sent; the result is the service's answer to that query |
| StsFacade.GetExternalId | TerraformCustomResourceHandler/src/main/java/com/amazon/servicecatalog/terraform/customresource/facades/StsFacade.java:31-42 | succeeds exactly when the function ARN has an account field, and is `TerraformHubAccount-` followed by that account |
| StsFacade.SameAccountSameId | TerraformCustomResourceHandler/src/main/java/com/amazon/servicecatalog/terraform/customresource/facades/StsFacade.java:38-42 | two functions in the same account present the same external id |
| StsFacade.DistinctAccountsDistinctIds | TerraformCustomResourceHandler/src/main/java/com/amazon/servicecatalog/terraform/customresource/facades/StsFacade.java:38-42 | distinct accounts present distinct external ids |
| TerraformResourceProperties.RoleArnMatchesExactly | TerraformCustomResourceHandler/src/main/java/com/amazon/servicecatalog/terraform/customresource/model/TerraformResourceProperties.java:30-43 | the role-ARN pattern accepts `arn:aws:iam::<account>:role/<name>` exactly when the account is twelve digits and the name is one to sixty-four characters from `[\w+=,.@-]` |
| TerraformResourceProperties.RoleArnPartsJoin | TerraformCustomResourceHandler/src/main/java/com/amazon/servicecatalog/terraform/customresource/model/TerraformResourceProperties.java:30-43 | an accepted role ARN is its six ':'-fields joined back |
| TerraformResourceProperties.RoleArnFields | TerraformCustomResourceHandler/src/main/java/com/amazon/servicecatalog/terraform/customresource/model/TerraformResourceProperties.java:30-43 | an accepted role ARN splits into exactly `arn`, `aws`, `iam`, an empty region, the twelve-digit account and `role/<name>`, so its account field is that account |
| TerraformResourceProperties.InvalidVariables | TerraformCustomResourceHandler/src/main/java/com/amazon/servicecatalog/terraform/customresource/model/TerraformResourceProperties.java:47-51 | a key is reported exactly when some variable with that key has a value that is neither a string nor a list of strings; none reported exactly when every variable is valid |
| TerraformResourceProperties.ValidateFields | TerraformCustomResourceHandler/src/main/java/com/amazon/servicecatalog/terraform/customresource/model/TerraformResourceProperties.java:38-62 | passes exactly when the three required fields are present, the role ARN matches the pattern and every variable is valid; otherwise the first failing check in source order gives its message |
| TerraformResourceProperties.ValidatedLaunchRoleAccount | TerraformCustomResourceHandler/src/main/java/com/amazon/servicecatalog/terraform/customresource/model/TerraformResourceProperties.java:30-45 | once validated, the launch role's ARN has an account field, and it is twelve digits |
| TerraformRequestHandler.RequesterAccountId | TerraformCustomResourceHandler/src/main/java/com/amazon/servicecatalog/terraform/customresource/TerraformRequestHandler.java:155-158 | the requester's account is the AccountId attribute's value when the attributes, the attribute and its value are all present; otherwise the missing-AccountId error |
| TerraformRequestHandler.VerifyNoCrossAccountAccess | TerraformCustomResourceHandler/src/main/java/com/amazon/servicecatalog/terraform/customresource/TerraformRequestHandler.java:151-164 | passes exactly when the launch role ARN has an account field equal to the requester's account; an unreadable ARN fails first with its index error, then a missing attribute, then the cross-account message |
| TerraformRequestHandler.VerifyWhitelisted | TerraformCustomResourceHandler/src/main/java/com/amazon/servicecatalog/terraform/customresource/TerraformRequestHandler.java:126-141 | passes exactly when the artifact URL's bucket is the allow-listed bucket; a URL that is not an S3 URI gives `Invalid TerraformArtifactUrl.` and its reason; another bucket gives the message naming the allowed one |
| TerraformRequestHandler.StackRegion | TerraformCustomResourceHandler/src/main/java/com/amazon/servicecatalog/terraform/customresource/TerraformRequestHandler.java:114-118 | the stack's region is field 3 of its id, which must exist and name a known region |
| TerraformRequestHandler.DispatchOnlyIfAllChecksPass | TerraformCustomResourceHandler/src/main/java/com/amazon/servicecatalog/terraform/customresource/TerraformRequestHandler.java:71-99 | a request is dispatched only when validation, the cross-account check, the signature check, the configuration, the external id, the region and the allow-list all passed, with the configuration and external id they produced |
| TerraformRequestHandler.DispatchOnlyWithinAccount | TerraformCustomResourceHandler/src/main/java/com/amazon/servicecatalog/terraform/customresource/TerraformRequestHandler.java:151-164 | a dispatched request's requester account is the launch role's account |
| TerraformRequestHandler.EarlyChecksInOrder | TerraformCustomResourceHandler/src/main/java/com/amazon/servicecatalog/terraform/customresource/TerraformRequestHandler.java:73-76 | the first failing check gives the reason: validation, then the cross-account check, then the signature |
| TerraformRequestHandler.StackDescribedOnlyForUpdate | TerraformCustomResourceHandler/src/main/java/com/amazon/servicecatalog/terraform/customresource/TerraformRequestHandler.java:91 | the stack is described only for UPDATE requests |
| TerraformRequestHandler.RollbackOnlyForUpdate | TerraformCustomResourceHandler/src/main/java/com/amazon/servicecatalog/terraform/customresource/TerraformRequestHandler.java:89-94 | the rollback answer comes only for an UPDATE on a stack whose first described status is UPDATE_ROLLBACK_IN_PROGRESS, and does not depend on the artifact's bucket |
| TerraformRequestHandler.NoRollbackAnswerOutsideUpdate | TerraformCustomResourceHandler/src/main/java/com/amazon/servicecatalog/terraform/customresource/TerraformRequestHandler.java:91 | CREATE and DELETE never take the rollback answer and never describe the stack |
| TerraformRequestHandler.ParseFailureReport | TerraformCustomResourceHandler/src/main/java/com/amazon/servicecatalog/terraform/customresource/TerraformRequestHandler.java:56-69 | a strict parse failure sends nothing, leaves the ledger alone, posts one FAILED callback `Failed to parse request: <message>` exactly when the lenient parse succeeds, and the invocation itself never fails |
| TerraformRequestHandler.RejectionPostsOneFailure | TerraformCustomResourceHandler/src/main/java/com/amazon/servicecatalog/terraform/customresource/TerraformRequestHandler.java:71-81 | a rejected request gets exactly one FAILED callback with the failing check's message, and nothing else happens |
| TerraformRequestHandler.RollbackPostsSuccess | TerraformCustomResourceHandler/src/main/java/com/amazon/servicecatalog/terraform/customresource/TerraformRequestHandler.java:78-94 | on the rollback answer one SUCCESS callback with an empty reason is posted and nothing is sent; only a rejected SUCCESS post adds a FAILED one |
| TerraformRequestHandler.SendsOnlyAfterChecks | TerraformCustomResourceHandler/src/main/java/com/amazon/servicecatalog/terraform/customresource/TerraformRequestHandler.java:50-99 | nothing reaches SSM unless the strict parse succeeded and every check passed |
| TerraformRequestHandler.DispatchFailureReported | TerraformCustomResourceHandler/src/main/java/com/amazon/servicecatalog/terraform/customresource/TerraformRequestHandler.java:77-81 | a failing dispatch is followed by one FAILED callback carrying its message |
| TerraformRequestHandler.TerraformRequestHandler.HandleRequest | TerraformCustomResourceHandler/src/main/java/com/amazon/servicecatalog/terraform/customresource/TerraformRequestHandler.java:50-82 | the new state and outcome are those of the whole handler over the parse results and the outside world |
| TerraformRequestHandler.TerraformRequestHandler.ReportParseFailure | TerraformCustomResourceHandler/src/main/java/com/amazon/servicecatalog/terraform/customresource/TerraformRequestHandler.java:59-68 | the new state and outcome are those of the parse-failure report |
| TerraformRequestHandler.TerraformRequestHandler.Carry | TerraformCustomResourceHandler/src/main/java/com/amazon/servicecatalog/terraform/customresource/TerraformRequestHandler.java:71-99 | the new state and outcome are those of carrying out the decided plan |
| TerraformRequestHandler.TerraformRequestHandler.AnswerRollback | TerraformCustomResourceHandler/src/main/java/com/amazon/servicecatalog/terraform/customresource/TerraformRequestHandler.java:78-93 | one SUCCESS post, and a FAILED post with its message if that one fails |
| TerraformRequestHandler.TerraformRequestHandler.Dispatch | TerraformCustomResourceHandler/src/main/java/com/amazon/servicecatalog/terraform/customresource/TerraformRequestHandler.java:78-98 | the command is sent, and a dispatch failure is answered by one FAILED post |
| ScConfig.MissingFields | TerraformScripts/sc_terraform_wrapper/sc_config.py:40 | the missing list holds only required keys absent from the configuration, and every absent required key appears in it; with `MissingFieldsAppend`, in declaration order |
| ScConfig.LoadConfig | TerraformScripts/sc_terraform_wrapper/sc_config.py:32-43 | succeeds exactly when bucket, region and root-workspace-path are all present, returning the configuration unchanged; otherwise the exception lists the absent keys, in declaration order by `RequiredMissingInOrder` |
| ScConfig.MissingFieldsAppend | TerraformScripts/sc_terraform_wrapper/sc_config.py:40 | the missing list of a concatenation is the missing list of the first part followed by that of the second, so declaration order is kept |
| ScConfig.RequiredMissingInOrder | TerraformScripts/sc_terraform_wrapper/sc_config.py:40-42 | the absent keys are listed in the order bucket, region, root-workspace-path, each exactly when it is absent |
| ScConfig.LoadedConfigHasFields | TerraformScripts/sc_terraform_wrapper/sc_config.py:17-43 | a loaded configuration has the three keys the worker reads |
| ScConfig.ExtraKeysIgnored | TerraformScripts/sc_terraform_wrapper/sc_config.py:40-43 | adding a key that is not required does not change whether loading succeeds |
| TerraformUtils.GetNameFromCfnStackId | TerraformScripts/sc_terraform_wrapper/terraform_utils.py:18-19 | succeeds exactly when the resource suffix holds a '/', and the name is the second '/'-field, which holds no '/'; otherwise the list-index error |
| TerraformUtils.StackNameOfSuffix | TerraformScripts/sc_terraform_wrapper/terraform_utils.py:18-19 | for a suffix `stack/<name>/<uuid>` the result is the name |
| TerraformUtils.FirstOf | TerraformScripts/sc_terraform_wrapper/terraform_utils.py:27 | the first index holding a stop character, or the length: no stop character comes before it |
| TerraformUtils.AfterScheme | TerraformScripts/sc_terraform_wrapper/terraform_utils.py:27 | what follows the scheme is never longer than the URL |
| TerraformUtils.UrlParse | TerraformScripts/sc_terraform_wrapper/terraform_utils.py:27 | the network location holds no '/', '?' or '#'; the path holds no '?' or '#', and for the schemes that take parameters its last segment holds no ';'; "//", the network location and the path begin what follows the scheme, and end there or at ';', '?' or '#'; after "//" the path is empty or starts with '/'; without "//" there is no network location |
| TerraformUtils.AfterSlashes | TerraformScripts/sc_terraform_wrapper/terraform_utils.py:27 | after "//" the network location runs to the first '/', '?' or '#', and the path follows it, empty or starting with '/' |
| TerraformUtils.WithoutSlashes | TerraformScripts/sc_terraform_wrapper/terraform_utils.py:27 | without "//" the network location is empty and the path starts the text, ending there or at ';', '?' or '#' |
| TerraformUtils.SegmentStart | TerraformScripts/sc_terraform_wrapper/terraform_utils.py:27 | the last segment starts just after the last '/', or at 0: no '/' follows it |
| TerraformUtils.StripParams | TerraformScripts/sc_terraform_wrapper/terraform_utils.py:27 | the path is cut at the first ';' of its last segment: a prefix reaching into that segment, with no ';' there, and followed by ';' when shorter |
| TerraformUtils.PathPart | TerraformScripts/sc_terraform_wrapper/terraform_utils.py:27 | the path is a prefix without '?' or '#', with parameters without ';' in its last segment, and followed by ';', '?' or '#' when shorter |
| TerraformUtils.PlusBecomesSpace | TerraformScripts/sc_terraform_wrapper/terraform_utils.py:22-41 | the '+' to `%20` rewrite followed by unquoting turns each '+' into a space, as the comment in the source intends |
| TerraformUtils.LongestGroup | TerraformScripts/sc_terraform_wrapper/terraform_utils.py:28 | the greedy optional group is the longest fitting prefix: it fits, and no longer prefix does |
| TerraformUtils.MatchS3Host | TerraformScripts/sc_terraform_wrapper/terraform_utils.py:28-30 | a host not ending in `.amazonaws.com` never matches; a matched group 1 ends in '.' and is a prefix of the host |
| TerraformUtils.SplitOnce | TerraformScripts/sc_terraform_wrapper/terraform_utils.py:37 | one or two parts; two exactly when the separator occurs, and then the first part has none and the parts rebuild the text |
| TerraformUtils.GetS3Location | TerraformScripts/sc_terraform_wrapper/terraform_utils.py:21-41 | a host that is not an S3 endpoint raises the invalid-endpoint exception, and every failure is that one or the missing-object-path one |
| TerraformUtils.LocationOf | TerraformScripts/sc_terraform_wrapper/terraform_utils.py:28-41 | the same for an already parsed URL |
| TerraformUtils.HttpsParse | TerraformScripts/sc_terraform_wrapper/terraform_utils.py:27 | `https://<netloc><path>` with no '?', '#' or ';' in the path parses into that network location and path |
| TerraformUtils.HttpsParseParams | TerraformScripts/sc_terraform_wrapper/terraform_utils.py:27 | `https://<netloc><path>` parses into that network location and the path less the `;parameters` of its last segment |
| TerraformUtils.VirtualHostedParse | TerraformScripts/sc_terraform_wrapper/terraform_utils.py:27 | a virtual-hosted URL whose key holds no '?', '#', ';', '%' or '+' parses into the endpoint and `/<key>` |
| TerraformUtils.VirtualHostedMatch | TerraformScripts/sc_terraform_wrapper/terraform_utils.py:28-32 | `<bucket>.s3.amazonaws.com` matches with group 1 `<bucket>.`, whatever dots the bucket holds |
| TerraformUtils.VirtualHostedLocation | TerraformScripts/sc_terraform_wrapper/terraform_utils.py:21-41 | `https://<bucket>.s3.amazonaws.com/<key>` names the key in the bucket, for a key that holds no '?', '#', ';', '%' or '+' |
| TerraformUtils.VirtualHostedLocationOf | TerraformScripts/sc_terraform_wrapper/terraform_utils.py:28-41 | the endpoint `<bucket>.s3.amazonaws.com` and the path `/<key>` give the bucket and the key |
| TerraformUtils.ParamsStripped | TerraformScripts/sc_terraform_wrapper/terraform_utils.py:27 | `/<key>;<params>` loses exactly `;<params>` |
| TerraformUtils.StripParamsAppend | TerraformScripts/sc_terraform_wrapper/terraform_utils.py:27 | parameters starting with ';' after a last segment free of ';', '?' and '#' are cut off exactly |
| TerraformUtils.VirtualHostedParamsParse | TerraformScripts/sc_terraform_wrapper/terraform_utils.py:27 | `https://<bucket>.s3.amazonaws.com/<key>;<params>` parses into the endpoint and `/<key>` |
| TerraformUtils.VirtualHostedParams | TerraformScripts/sc_terraform_wrapper/terraform_utils.py:21-41 | with `;<params>` after the key, the same bucket and key are named |
| TerraformUtils.EncodedLocationOf | TerraformScripts/sc_terraform_wrapper/terraform_utils.py:28-41 | the endpoint and `/` followed by a UTF-8 percent-encoded key give the bucket and the key decoded back |
| TerraformUtils.VirtualHostedEncoded | TerraformScripts/sc_terraform_wrapper/terraform_utils.py:21-41 | a key percent-encoded as UTF-8 in a virtual-hosted URL names the key itself, non-ASCII characters included |
| TerraformUtils.PathStyleMatch | TerraformScripts/sc_terraform_wrapper/terraform_utils.py:28-32 | `s3.amazonaws.com` matches without group 1 |
| TerraformUtils.PathStyleLocationOf | TerraformScripts/sc_terraform_wrapper/terraform_utils.py:33-41 | a path-style path `/<bucket>/<key>` gives the bucket and the key |
| TerraformUtils.PathStyleLocation | TerraformScripts/sc_terraform_wrapper/terraform_utils.py:21-41 | `https://s3.amazonaws.com/<bucket>/<key>` names the key in the bucket, for a key that holds no '?', '#', ';', '%' or '+' |
| TerraformUtils.ForeignHostRejected | TerraformScripts/sc_terraform_wrapper/terraform_utils.py:28-30 | a host outside `amazonaws.com` always raises the invalid-endpoint exception |
| PercentDecoding.Unquote | TerraformScripts/sc_terraform_wrapper/terraform_utils.py:41 | unquoting never lengthens the text, and only empty text decodes to empty text; the lemmas below state what it decodes to |
| PercentDecoding.Accepted | TerraformScripts/sc_terraform_wrapper/terraform_utils.py:41 | a lead byte takes at least one and at most the bytes it needs; every byte taken continues the sequence, and a shorter count means the next byte does not |
| PercentDecoding.UnquoteFree | TerraformScripts/sc_terraform_wrapper/terraform_utils.py:41 | text without '%' is unchanged |
| PercentDecoding.UnquoteCons | TerraformScripts/sc_terraform_wrapper/terraform_utils.py:41 | a leading character other than '%' is kept, and unquoting goes on after it |
| PercentDecoding.UnquoteEscapedAscii | TerraformScripts/sc_terraform_wrapper/terraform_utils.py:41 | `%XY` of an ASCII byte decodes to that character, and unquoting goes on after it |
| PercentDecoding.UnquoteStrayByte | TerraformScripts/sc_terraform_wrapper/terraform_utils.py:41 | an escaped byte that cannot start a UTF-8 sequence decodes to U+FFFD, and unquoting goes on after it |
| PercentDecoding.UnquoteTruncated | TerraformScripts/sc_terraform_wrapper/terraform_utils.py:41 | a lone lead byte of a multi-byte sequence decodes to U+FFFD |
| PercentDecoding.DecodeUtf8 | TerraformScripts/sc_terraform_wrapper/terraform_utils.py:41 | the UTF-8 bytes of any character decode to that character, whatever follows |
| PercentDecoding.UnquoteQuote | TerraformScripts/sc_terraform_wrapper/terraform_utils.py:41 | unquoting the percent-encoded UTF-8 form of any text gives the text back |
| TerraformState.FormatFor | TerraformScripts/sc_terraform_wrapper/terraform_state.py:22-45 | a format is found exactly when the table lists the type, and it is the one listed with it |
| TerraformState.StateKey | TerraformScripts/sc_terraform_wrapper/terraform_state.py:54 | the state key starts with the physical resource id and ends with `/terraform.tfstate` |
| TerraformState.StateKeyInjective | TerraformScripts/sc_terraform_wrapper/terraform_state.py:54 | distinct resources have distinct state keys |
| TerraformState.OutputValues | TerraformScripts/sc_terraform_wrapper/terraform_state.py:66 | the outputs reported are exactly the (name, value) of the outputs that carry a `value`, and no more than there are outputs |
| TerraformState.GetOutputs | TerraformScripts/sc_terraform_wrapper/terraform_state.py:61-66 | reading outputs fails exactly when the state has no modules, with jq's iteration error |
| TerraformState.OutputsFromFirstModuleOnly | TerraformScripts/sc_terraform_wrapper/terraform_state.py:62 | modules after the first do not change the outputs |
| TerraformState.AllResources | TerraformScripts/sc_terraform_wrapper/terraform_state.py:75-83 | every module must have resources, else jq's iteration error; the result holds exactly the resources of all modules |
| TerraformState.StateResourceArns | TerraformScripts/sc_terraform_wrapper/terraform_state.py:73-76 | the kept ARNs are exactly the resources' `arn` attributes that are non-empty, start with `arn:` and hold at least five ':' |
| TerraformState.AttributeValues | TerraformScripts/sc_terraform_wrapper/terraform_state.py:94 | succeeds exactly when every named attribute exists, giving their values in order |
| TerraformState.GenerateResourceArn | TerraformScripts/sc_terraform_wrapper/terraform_state.py:92-95 | for a table type, the ARN is built exactly when the resource has an `id`; otherwise a KeyError for `id` |
| TerraformState.TableAttributes | TerraformScripts/sc_terraform_wrapper/terraform_state.py:22-45 | every format in the table takes its suffix from the `id` attribute alone |
| TerraformState.GeneratedArns | TerraformScripts/sc_terraform_wrapper/terraform_state.py:78-90 | a failure is the KeyError for `id` |
| TerraformState.GeneratedArnsOk | TerraformScripts/sc_terraform_wrapper/terraform_state.py:78-90 | generation succeeds exactly when every resource of a table type has an `id` |
| TerraformState.GeneratedArnsContents | TerraformScripts/sc_terraform_wrapper/terraform_state.py:78-90 | the generated ARNs are exactly those built from the resources of table types |
| TerraformState.Dedup | TerraformScripts/sc_terraform_wrapper/terraform_state.py:71 | each distinct ARN appears once, and nothing is added or lost |
| TerraformState.GetArns | TerraformScripts/sc_terraform_wrapper/terraform_state.py:68-71 | the reported ARNs hold no duplicates |
| TerraformState.ArnsOf | TerraformScripts/sc_terraform_wrapper/terraform_state.py:68-90 | the reported ARNs, each once, are exactly the state's passing `arn` attributes and the ARNs built for resources of table types |
| TerraformState.Parse | TerraformScripts/sc_terraform_wrapper/terraform_state.py:47-51 | a failed download is the result; otherwise the outputs and the ARNs are those read from the state |
| TerraformState.GeneratedArnFields | TerraformScripts/sc_terraform_wrapper/terraform_state.py:92-95 | a built ARN parses into the stack's partition, the format's service, the stack's region and account unless the format leaves them out, and the suffix filled with the resource's id |
| TerraformState.Route53ArnsAreGlobal | TerraformScripts/sc_terraform_wrapper/terraform_state.py:43-44 | Route 53 zones and health checks are built without region and account |
| TerraformState.TableKeysDistinct | TerraformScripts/sc_terraform_wrapper/terraform_state.py:22-45 | no type is listed twice |
| TerraformState.UnlistedTypesNotBuilt | TerraformScripts/sc_terraform_wrapper/terraform_state.py:80-81 | a resource whose type is not in the table gets no built ARN and causes no error |
| TerraformExecutor.RequestCommand | TerraformScripts/sc_terraform_wrapper/terraform_executor.py:25-27 | the command is `destroy` exactly for a Delete request and `apply` otherwise |
| TerraformExecutor.LastIndexOf | TerraformScripts/sc_terraform_wrapper/terraform_executor.py:34 | the index found holds the character and no later index does; none found means the character does not occur |
| TerraformExecutor.ReleaseOf | TerraformScripts/sc_terraform_wrapper/terraform_executor.py:34 | a release `\d+.\d+.\d+` holds no 'v' |
| TerraformExecutor.VersionMatches | TerraformScripts/sc_terraform_wrapper/terraform_executor.py:34 | at most one match per line, and each match is the release at the end of some line |
| TerraformExecutor.TerraformVersion | TerraformScripts/sc_terraform_wrapper/terraform_executor.py:29-47 | succeeds exactly when the output has exactly one matching line, giving its release; a failed run raises with its exit code and the skipped command; any other output raises the unexpected-format message with the text |
| TerraformExecutor.ReleaseOfRender | TerraformScripts/sc_terraform_wrapper/terraform_executor.py:34-37 | a release's decimal text `major.minor.patch` reads back as that release |
| TerraformExecutor.VersionLine | TerraformScripts/sc_terraform_wrapper/terraform_executor.py:34 | a line such as `Terraform v0.11.7` matches with its release, whatever precedes the 'v' |
| TerraformExecutor.SingleVersionLine | TerraformScripts/sc_terraform_wrapper/terraform_executor.py:34-37 | output whose first line names a release and whose other lines match nothing gives that release |
| TerraformExecutor.NewExecutor | TerraformScripts/sc_terraform_wrapper/terraform_executor.py:20-23 | the executor exists exactly when the version can be determined, with the request's command and that version; otherwise the version error |
| TerraformExecutor.InitWorkspace | TerraformScripts/sc_terraform_wrapper/terraform_executor.py:49-55 | init passes exactly on exit code 0; any other code raises, naming the code and the skipped command |
| TerraformExecutor.DestroyTokens | TerraformScripts/sc_terraform_wrapper/terraform_executor.py:69-75 | destroy runs with `-input=false -no-color` and then `-auto-approve` from release 0.11.4 on and `-force` before it |
| TerraformExecutor.StartRequestCommand | TerraformScripts/sc_terraform_wrapper/terraform_executor.py:60-75 | the process started is `terraform apply` or `terraform destroy` as the command says, with `-input=false`; apply uses its fixed token list |
| TerraformExecutor.RequestCommandIsUnattended | TerraformScripts/sc_terraform_wrapper/terraform_executor.py:60-75 | apply and destroy never ask for input and are always pre-approved |
| TerraformExecutor.FinishRequestCommand | TerraformScripts/sc_terraform_wrapper/terraform_executor.py:77-80 | the request command passes exactly on exit code 0; any other code raises, naming the command and the code |
| TerraformExecutor.DeleteDestroys | TerraformScripts/sc_terraform_wrapper/terraform_executor.py:21-75 | a Delete request destroys with the flag its release accepts |
| TerraformResourceGroup.BuildQueryFilter | TerraformScripts/sc_terraform_wrapper/terraform_resource_group.py:21-25 | the filter selects `AWS::AllSupported` resource types tagged `TfResourceGroupName` with the group's name |
| TerraformResourceGroup.DoesGroupExist | TerraformScripts/sc_terraform_wrapper/terraform_resource_group.py:45-54 | a successful get means the group exists; NotFoundException means it does not; any other client error is raised again |
| TerraformResourceGroup.ReplyAbout | TerraformScripts/sc_terraform_wrapper/terraform_resource_group.py:47-60 | without a service-wide fault, a call about a group succeeds exactly when the group exists |
| TerraformResourceGroup.CreateResourceGroupIfNotExist | TerraformScripts/sc_terraform_wrapper/terraform_resource_group.py:27-43 | a missing `CfnStackId` tag is a KeyError; a success acts in the region of the stack that tag names, on the group the `TfResourceGroupName` tag names, and creates it exactly when it does not exist, with the fixed description, the tag query and all the tags; any lookup fault other than NotFoundException fails; a `create_group` fault on a missing group raises its ClientError |
| TerraformResourceGroup.CreateIsIdempotent | TerraformScripts/sc_terraform_wrapper/terraform_resource_group.py:27-43 | a second create finds the group and leaves the service as the first left it |
| TerraformResourceGroup.ExistingGroupKept | TerraformScripts/sc_terraform_wrapper/terraform_resource_group.py:31-43 | an existing group is never replaced, whatever the tags say |
| TerraformResourceGroup.DeleteResourceGroup | TerraformScripts/sc_terraform_wrapper/terraform_resource_group.py:56-66 | without a fault the group is deleted exactly when it exists, and a missing group is a successful no-op; NotFoundException is no error; any other client error is raised again |
| TerraformResourceGroup.DeleteIsIdempotent | TerraformScripts/sc_terraform_wrapper/terraform_resource_group.py:56-66 | after a delete the group is gone, and deleting again is a successful no-op that changes nothing |
| TerraformResourceGroup.ConstructResourceGroupName | TerraformScripts/sc_terraform_wrapper/terraform_resource_group.py:68-80 | the name exists exactly when the stack id parses and has a stack name (otherwise the list-index error), and ends with `-` and the SHA-256 of `<stack id>\|<logical id>` |
| TerraformResourceGroup.GroupNameFitsLimit | TerraformScripts/sc_terraform_wrapper/terraform_resource_group.py:77-80 | the name is at most 128 characters |
| TerraformResourceGroup.GroupNameReadable | TerraformScripts/sc_terraform_wrapper/terraform_resource_group.py:72-80 | the name starts with up to 32 characters of the stack name and up to 30 of the logical id, each followed by `-` |
| TerraformResourceGroup.DistinctDigestsDistinctNames | TerraformScripts/sc_terraform_wrapper/terraform_resource_group.py:75-80 | resources with different digests get different names, however the readable parts are cut |
| TerraformTag.TagCalls | TerraformScripts/sc_terraform_wrapper/terraform_tag.py:29-35 | a pass makes one call per ARN, in order, each with the same tags |
| TerraformTag.PassOver | TerraformScripts/sc_terraform_wrapper/terraform_tag.py:29-45 | a pass tries exactly the ARNs it is given |
| TerraformTag.FailedMembers | TerraformScripts/sc_terraform_wrapper/terraform_tag.py:36-45 | an ARN is retried exactly when one of its calls gave an error code other than InvalidParameterException |
| TerraformTag.IgnoredMembers | TerraformScripts/sc_terraform_wrapper/terraform_tag.py:41-43 | an ARN is given up on exactly when one of its calls gave InvalidParameterException |
| TerraformTag.Passes | TerraformScripts/sc_terraform_wrapper/terraform_tag.py:50-59 | the schedule starts with the pass over the given ARNs |
| TerraformTag.AtMostFourPasses | TerraformScripts/sc_terraform_wrapper/terraform_tag.py:19-61 | from the first try there are at most four passes: the try and three retries |
| TerraformTag.RetriesOnlyFailed | TerraformScripts/sc_terraform_wrapper/terraform_tag.py:51-59 | each retry tries exactly the ARNs that failed in the pass before, and only follows a pass where some failed |
| TerraformTag.StopsWhenDoneOrExhausted | TerraformScripts/sc_terraform_wrapper/terraform_tag.py:51-61 | the procedure stops only when nothing failed or the retries are used up |
| TerraformTag.NoRetryWithoutFailure | TerraformScripts/sc_terraform_wrapper/terraform_tag.py:51 | when no call of the first pass gives a retryable code there is a single pass |
| TerraformTag.TaggingClient.TagResources | TerraformScripts/sc_terraform_wrapper/terraform_tag.py:32-35 | one call for the single ARN is appended, answered by the service's reply to it |
| TerraformTag.TagEach | TerraformScripts/sc_terraform_wrapper/terraform_tag.py:26-45 | the loop calls the service once per ARN, in order, and its failed and ignored lists are those of the pass |
| TerraformTag.TagResourcesWithRetry | TerraformScripts/sc_terraform_wrapper/terraform_tag.py:23-61 | the calls made are exactly those of the schedule of passes; failures left after the last retry are only reported |
| TerraformTag.TagAllResources | TerraformScripts/sc_terraform_wrapper/terraform_tag.py:63-65 | tagging makes the calls of the schedule from try 1 |
| TerraformTag.TagsToMap | TerraformScripts/sc_terraform_wrapper/terraform_tag.py:75 | a key is in the map exactly when some tag has it |
| TerraformTag.LaterTagWins | TerraformScripts/sc_terraform_wrapper/terraform_tag.py:75 | a tag whose key no later tag repeats sets that key, to its value |
| TerraformTag.LastTagWins | TerraformScripts/sc_terraform_wrapper/terraform_tag.py:75 | the list's last tag sets its key |
| TerraformTag.RetrieveTags | TerraformScripts/sc_terraform_wrapper/terraform_tag.py:71-75 | succeeds exactly when the describe call returns a stack; none is an IndexError |
| TerraformTag.RetrieveUserTags | TerraformScripts/sc_terraform_wrapper/terraform_tag.py:67-69 | the user tags are exactly the stack's tags whose key does not start with `aws:`, with the same values |
| WrapperResponsePoster.Field | TerraformScripts/sc_terraform_wrapper/response_poster.py:34-56 | `request[key]` succeeds exactly when the request is a dictionary holding the key; a missing key is a KeyError |
| WrapperResponsePoster.TextField | TerraformScripts/sc_terraform_wrapper/response_poster.py:34-66 | a field used as text succeeds exactly when it is present and a string |
| WrapperResponsePoster.Get | TerraformScripts/sc_terraform_wrapper/response_poster.py:61 | `get` works only on a dictionary and gives the stored value, or the default when the key is absent |
| WrapperResponsePoster.ProxyKeyShape | TerraformScripts/sc_terraform_wrapper/response_poster.py:73-74 | the redirect key is `redirects/` followed by ten distinct ASCII letters or digits |
| WrapperResponsePoster.RollbackApplies | TerraformScripts/sc_terraform_wrapper/response_poster.py:46 | the rollback note applies exactly to a FAILED status on an Update request; only a FAILED status reads the request type |
| WrapperResponsePoster.FullReasonShape | TerraformScripts/sc_terraform_wrapper/response_poster.py:46-52 | the reason keeps the caller's text, has the rollback note exactly when it applies, and always ends with the script-output address |
| WrapperResponsePoster.ResourceArnsValue | TerraformScripts/sc_terraform_wrapper/response_poster.py:58 | no ARNs give an empty list, some ARNs give a string |
| WrapperResponsePoster.ResourceArnsRoundTrip | TerraformScripts/sc_terraform_wrapper/response_poster.py:58 | splitting the joined `ResourceArns` on commas gives back ARNs that contain no comma |
| WrapperResponsePoster.ResponseFor | TerraformScripts/sc_terraform_wrapper/response_poster.py:46-64 | the response is built exactly when the request has its four ids and a property dictionary; they are copied, and Data holds the ARNs, output address, state location, dry-run id and outputs |
| WrapperResponsePoster.DryRunIdDefaultsToEmpty | TerraformScripts/sc_terraform_wrapper/response_poster.py:61 | without a DryRunId property the response carries the empty string |
| WrapperResponsePoster.RaiseForStatus | TerraformScripts/sc_terraform_wrapper/response_poster.py:68 | `raise_for_status` raises HTTPError exactly for 4xx and 5xx codes |
| WrapperResponsePoster.PutOutcome | TerraformScripts/sc_terraform_wrapper/response_poster.py:66-68 | the PUT fails only when it raises or when a non-200 status is a 4xx or 5xx; other non-200 codes are only printed |
| WrapperResponsePoster.TimeoutMessages | TerraformScripts/sc_terraform_wrapper/response_poster.py:95-99 | the Create and the other timeout messages share their opening and differ |
| WrapperResponsePoster.ResponsePoster.CreateProxyObject | TerraformScripts/sc_terraform_wrapper/response_poster.py:70-92 | exactly one `put_object` of a public, empty redirect object pointing at a week-long presigned URL is made; when S3 accepts it the object is in the output bucket and its website address is returned; when S3 refuses it, that error is raised and no object is added |
| WrapperResponsePoster.ResponsePoster.PostResponse | TerraformScripts/sc_terraform_wrapper/response_poster.py:41-68 | a ResponseURL that cannot be read raises before anything is written; otherwise the redirect object is written first, and a refused write raises before any PUT; then exactly one PUT of the built response goes to ResponseURL with an empty Content-Type, and a build error stops before the PUT |
| WrapperResponsePoster.ResponsePoster.PostTo | TerraformScripts/sc_terraform_wrapper/response_poster.py:44-68 | after the URL is read: one redirect write; a refused one raises with nothing sent; otherwise one PUT of the built response, or the build error with nothing sent |
| WrapperResponsePoster.ResponsePoster.Put | TerraformScripts/sc_terraform_wrapper/response_poster.py:66-68 | one PUT of the built body to the URL with an empty Content-Type, its outcome what the endpoint's answer means; a build error sends nothing |
| WrapperResponsePoster.ResponsePoster.PostResponseWithExpirationCheck | TerraformScripts/sc_terraform_wrapper/response_poster.py:32-39 | an expired response URL gets nothing written and nothing sent; an unexpired one is posted as PostResponse does, a refused redirect write raising before the PUT |
| WrapperResponsePoster.ResponsePoster.PostTimeoutResponse | TerraformScripts/sc_terraform_wrapper/response_poster.py:94-110 | a missing request type fails with nothing changed; otherwise FAILED with the timeout message for the request type, posted without the expiry check: a missing `ResponseURL` fails with nothing written, a refused redirect write raises before the PUT, an unbuildable body fails with no PUT, and a made PUT sends the callback JSON and yields the reply's outcome (4xx and 5xx raise); only a Create request's process is signalled, after a post that did not raise |
| WrapperResponsePoster.ResponsePoster.PostTimeout | TerraformScripts/sc_terraform_wrapper/response_poster.py:100-108 | the FAILED post with the timeout message, with the same outcome in each case as `PostResponse` (missing URL, refused redirect write, unbuildable body, reply to the PUT), then a signal to the process only for Create and only after a post that did not raise |
| WrapperResponsePoster.ResponsePoster.Signal | TerraformScripts/sc_terraform_wrapper/response_poster.py:105-108 | the process is signalled exactly when asked, and nothing else changes |
| WrapperMain.MissingFields | TerraformScripts/sc_terraform_wrapper/__main__.py:77-82 | exactly the listed fields that are absent or falsy, in the order listed |
| WrapperMain.MissingFieldsAppend | TerraformScripts/sc_terraform_wrapper/__main__.py:77-82 | the missing fields of a joined list are those of each part, in order |
| WrapperMain.ArtifactLocation | TerraformScripts/sc_terraform_wrapper/__main__.py:87 | a text URL gives its S3 location; a non-text value has no `replace` |
| WrapperMain.ValidateProperties | TerraformScripts/sc_terraform_wrapper/__main__.py:81-87 | passes exactly when the properties are a dictionary with a truthy artifact URL and launch role whose URL is an S3 location; missing fields are all named |
| WrapperMain.ValidateRequestArg | TerraformScripts/sc_terraform_wrapper/__main__.py:76-87 | passes exactly when all seven request fields are truthy and the properties pass; the request fields are checked first |
| WrapperMain.EmptyFieldIsMissing | TerraformScripts/sc_terraform_wrapper/__main__.py:77 | a required field that is present but empty is reported as missing |
| WrapperMain.GetExceptionMsg | TerraformScripts/sc_terraform_wrapper/__main__.py:114-117 | the message ends with the exception's text and is led by "type: " unless the type is plain Exception |
| WrapperMain.ExceptionMsgInjective | TerraformScripts/sc_terraform_wrapper/__main__.py:114-117 | exceptions of named types give the same message only when they are the same exception |
| WrapperMain.ReadRequest | TerraformScripts/sc_terraform_wrapper/__main__.py:138-168 | the run's view of the request holds exactly its text fields, its properties, the artifact location, the parsed stack ARN and the group name |
| WrapperMain.SessionName | TerraformScripts/sc_terraform_wrapper/__main__.py:142 | the session name is the fixed prefix followed by the request id |
| WrapperMain.PathJoin | TerraformScripts/sc_terraform_wrapper/__main__.py:163-168 | the joined path ends with the second part |
| WrapperMain.BaseName | TerraformScripts/sc_terraform_wrapper/__main__.py:134 | the base name contains no '/' |
| WrapperMain.StateFileLocation | TerraformScripts/sc_terraform_wrapper/__main__.py:96 | the state location is `s3://bucket/` followed by the state key |
| WrapperMain.StateFileLocationInjective | TerraformScripts/sc_terraform_wrapper/__main__.py:90-96 | two resources of one bucket never share a state location |
| WrapperMain.ResourceTags | TerraformScripts/sc_terraform_wrapper/__main__.py:155-157 | the user's tags plus CfnStackId and TfResourceGroupName, which override user tags of those keys |
| WrapperMain.PlanFor | TerraformScripts/sc_terraform_wrapper/__main__.py:141-148 | deletes are never dry runs; a dry run is a truthy DryRunId outside Delete; the role is the launch role, the external id and the session name |
| WrapperMain.ConfigFilesPermitted | TerraformScripts/sc_terraform_wrapper/__main__.py:171-177 | the backend, provider and variables files name the plan's state bucket, key, region, stack region and role, and touch nothing outside the workspace |
| WrapperMain.SetupCommandsPermitted | TerraformScripts/sc_terraform_wrapper/__main__.py:183-184 | the version check and init touch only the workspace |
| WrapperMain.PlanCommandPermitted | TerraformScripts/sc_terraform_wrapper/__main__.py:186-190 | a dry run plans and reports success without tagging or group changes |
| WrapperMain.RequestCommandPermitted | TerraformScripts/sc_terraform_wrapper/__main__.py:192-196 | a run that is not a dry run starts the command its request type picks and sets the alarm |
| WrapperMain.ReportPermitted | TerraformScripts/sc_terraform_wrapper/__main__.py:213-217 | the success report and the disabled alarm change nothing else |
| WrapperMain.ReadPermitted | TerraformScripts/sc_terraform_wrapper/__main__.py:199 | the state is read back from the run's own backend location |
| WrapperMain.TagPermitted | TerraformScripts/sc_terraform_wrapper/__main__.py:202-204 | Create and Update runs that are not dry runs tag in the stack's region with the launch role and the stack-id tag |
| WrapperMain.ChangePermitted | TerraformScripts/sc_terraform_wrapper/__main__.py:206-211 | only Create and Update create the group and only Delete deletes it, and only the run's own group in the stack's region |
| WrapperMain.CleanupActions | TerraformScripts/sc_terraform_wrapper/__main__.py:219-225 | one clean-up step per registered undo, in order, each reporting whether it succeeded |
| WrapperMain.Clean | TerraformScripts/sc_terraform_wrapper/__main__.py:219-225 | every registered step is tried in order; a failing one does not stop the rest |
| WrapperMain.ArtifactCleanups | TerraformScripts/sc_terraform_wrapper/__main__.py:129-132 | the downloaded file's removal is registered exactly when the artifact was a zip that was extracted |
| WrapperMain.WorkspaceCleanups | TerraformScripts/sc_terraform_wrapper/__main__.py:164-169 | the workspace's removal is registered as soon as it is created, then the artifact's |
| WrapperMain.CleanupList.Append | TerraformScripts/sc_terraform_wrapper/__main__.py:132-165 | an undo step is added at the end |
| WrapperMain.Worker.ResolveNames | TerraformScripts/sc_terraform_wrapper/__main__.py:139-157 | passes exactly when the group name and stack ARN resolve and, for a tagging run, the stack's tags can be read; the tags are read at most once, first |
| WrapperMain.Worker.FetchArtifact | TerraformScripts/sc_terraform_wrapper/__main__.py:119-135 | an unparsable URL fails before the download; a 404 names the missing config; another client error leaves no file; a zip is extracted and its removal registered, another file is moved in |
| WrapperMain.Worker.SetUpWorkspace | TerraformScripts/sc_terraform_wrapper/__main__.py:159-169 | the workspace is created first; an existing one fails; otherwise the result is that of fetching the artifact |
| WrapperMain.Worker.PrepareWorkspace | TerraformScripts/sc_terraform_wrapper/__main__.py:159-177 | passes exactly when the workspace is new and the artifact arrives; the backend configuration is then written |
| WrapperMain.Worker.Prepare | TerraformScripts/sc_terraform_wrapper/__main__.py:137-177 | the tags are read before anything else, no group changes, and the prepared names agree with the plan |
| WrapperMain.Worker.StartTerraform | TerraformScripts/sc_terraform_wrapper/__main__.py:183-184 | the executor is made from the request type and the version check, then the workspace is initialised |
| WrapperMain.Worker.ApplyRequest | TerraformScripts/sc_terraform_wrapper/__main__.py:192-197 | the request command is started, the alarm is set to the seconds the response URL has left, and the result is that of finishing the command |
| WrapperMain.Worker.CreateGroup | TerraformScripts/sc_terraform_wrapper/__main__.py:202-208 | the state's resources are tagged by the retry schedule; the run's group then exists after a success with no lookup fault, and always when neither the lookup nor `create_group` faults; a `create_group` fault on a missing group fails |
| WrapperMain.Worker.DeleteGroup | TerraformScripts/sc_terraform_wrapper/__main__.py:210-211 | afterwards the run's group is gone unless the service faults; a not-found fault is not an error |
| WrapperMain.Worker.RecordResources | TerraformScripts/sc_terraform_wrapper/__main__.py:199-211 | the state is parsed from the run's backend location; Delete never tags; the group exists after Create or Update and is gone after Delete |
| WrapperMain.Worker.ReportDryRun | TerraformScripts/sc_terraform_wrapper/__main__.py:186-190 | a dry run plans and then reports SUCCESS, whatever the plan gave |
| WrapperMain.Worker.ReportSuccess | TerraformScripts/sc_terraform_wrapper/__main__.py:213-217 | SUCCESS is posted with the ARNs, outputs and state location, then the alarm is disabled |
| WrapperMain.Worker.RecordAndReport | TerraformScripts/sc_terraform_wrapper/__main__.py:199-217 | only permitted actions; a success ends by posting SUCCESS and disabling the alarm, with the run's group present after Create or Update and gone after Delete |
| WrapperMain.Worker.CompleteRequest | TerraformScripts/sc_terraform_wrapper/__main__.py:192-217 | success needs a zero exit code from the request command and ends by posting SUCCESS and disabling the alarm |
| WrapperMain.Worker.Execute | TerraformScripts/sc_terraform_wrapper/__main__.py:179-217 | a dry run does version, init, plan and SUCCESS only; other runs succeed only after init and the command both exit 0 |
| WrapperMain.Worker.Run | TerraformScripts/sc_terraform_wrapper/__main__.py:137-217 | every effect is one the plan permits, the tags are read first, the groups change only by the logged changes, and success needs the workspace, artifact and exit codes |
| WrapperMain.RunRequest | TerraformScripts/sc_terraform_wrapper/__main__.py:238-240 | a request that fails validation has no effect; a valid one runs with only permitted effects |
| WrapperMain.FailureTraceGroups | TerraformScripts/sc_terraform_wrapper/__main__.py:241-250 | posting FAILED and cleaning up change no resource group |
| WrapperMain.ReportFailure | TerraformScripts/sc_terraform_wrapper/__main__.py:241-248 | FAILED is posted with the fixed prefix and the exception message, and the original exception is raised again unless the post itself raised |
| WrapperMain.Fulfil | TerraformScripts/sc_terraform_wrapper/__main__.py:227-250 | the clean-ups always run last; a failure adds one FAILED post before them; a request that fails validation raises having done nothing |
| WrapperMain.Start | TerraformScripts/sc_terraform_wrapper/__main__.py:238-240 | a request that fails validation stops before anything runs, with nothing registered for clean-up; the groups change exactly by the logged changes |
| WrapperMain.Conclude | TerraformScripts/sc_terraform_wrapper/__main__.py:241-250 | a failed run adds one FAILED post with the exception's message and raises that exception; a run that passed ends with the clean-ups; either way the logged group changes are those of the run |

## Left out

- I/O, processes and the network. The answers of S3, SSM, EC2, CloudFormation, STS, the Resource Groups and Tagging APIs and the callback endpoint are parameters of the model. So are Terraform's exit codes and output, the process environment and the configuration file's decoded contents. The writes fail through their answers: the SSM send, the ledger put, the Resource Groups lookup, create and delete, the redirect object put and the callback PUT. A ledger read is not given an S3 failure: it returns what the bucket holds.
- Clocks and randomness. The current time (milliseconds or microseconds), the EC2 instance draw, the proxy-key sample, the temporary-file UUIDs and the backend and provider file names are parameters. One clock value is used for every expiry reading within one posting.
- The SNS event's JSON unmarshalling. The strict and lenient parses enter as results. The SNS signature verification enters as an outcome, because the certificate check is foreign code.
- The request's serialized form. The text `toRequestString` produces enters as a parameter of the dispatch.
- `AmazonS3URI`. Which bucket the SDK finds in the artifact URL is a parameter of the allow-list check.
- Building an STS credentials provider for the launch role, and boto3 sessions for the assumed role. These are not modelled: the role's ARN, external id and session name are recorded with each action instead.
- The SSM working directory, document name and timeout. They are not recorded in the modelled send.
- SDK exception messages are not translated. Each error is modelled by its kind and the message the handler builds.
- Log lines and `print` output are not modelled.
- Sleeps are not modelled: the 30-second wait in the best-effort check, and the back-off and jitter between tag retries.
- The timeout alarm's handler firing asynchronously is not modelled. The model records setting the alarm, and `PostTimeoutResponse` models what the handler would do. Python's conversion of negative seconds for `signal.alarm` is not modelled.
- `os.path.expanduser` of the root workspace path is not modelled: the configured path is used as given.
- Unpacking a zip artifact is not modelled: the model records only whether the file was a zip.
- TerraformState.Dedup: keeps the first occurrence of each ARN in order. The source goes through a Python `set`, whose order is unspecified, so only the set of ARNs and the absence of duplicates match the source.
- CfnUrlParser.ParseInt: accepts an optional '+' or '-' sign followed by ASCII digits. It does not accept the surrounding whitespace, the non-ASCII digits or the underscores Python's `int()` allows.
- CfnUrlParser.QueryPairs: fields are separated by '&' alone, as in Python 3.9.2 and later; earlier versions also split at ';'.
- TerraformUtils.UrlParse: the stripping of leading control characters and spaces, the removal of tabs and line breaks, and the checks `urlsplit` makes on brackets and Unicode network locations are not modelled.
- Ec2Facade.GetInstanceId: takes the reservations `describeInstances` returned, null or a list. An exception thrown by the `describeInstances` call is not modelled: only a null or empty answer, which gives the no-instance RuntimeException.
- TerraformTag.RetrieveTags: takes the stacks `describe_stacks` returned. A failing `describe_stacks` call is not modelled: only an empty `Stacks` list, which gives the IndexError.
- TerraformState.Resource: the state file is taken in a typed form, where `primary` and `attributes` are objects or absent. A missing one reads as no ARN and no attributes, as jq and `.get(..., {})` do. A `primary` or `attributes` holding a non-object JSON value, on which the source raises, cannot be represented.
- CustomResourceRequest.NewRequest: the request type's text form is taken to be CREATE, UPDATE or DELETE. `RequestType.java` is not part of this model.
- ArnParser.Field: a missing field is reported as an `IndexOutOfBoundsException` whose message is "Index: i, Size: n". That is the message of Java 8's `ArrayList`, which backs the list Guava's `splitToList` returns; other Java versions word it differently.
- WrapperResponsePoster.TextField: a request field read as text that holds another JSON type gives a modelled `TypeError`. This approximates the Python failure, which happens later and elsewhere.
- WrapperMain.ReadRequest: the values the run derives from the request are computed up front, before the run starts. These are the artifact location, the parsed stack ARN and the group name. The run consults them at the points where the source computes them.
- WrapperMain.PlanFor: states the request type, the dry-run rule and the role. The other plan fields are copied from the request and the configuration, as its body shows.
- WrapperMain.Worker.ResolveNames: no contract clause covers a stack id that does not parse. The group name is checked first and is built from the same stack ARN, so that failure is always reported as the group name's error.
- WrapperMain.Worker.ReportDryRun: states the logged actions and not the callback body. `WrapperResponsePoster.ResponsePoster.PostResponseWithExpirationCheck` states the body.
- WrapperMain.Worker.ReportSuccess: states the logged actions and not the callback body. `WrapperResponsePoster.ResponsePoster.PostResponseWithExpirationCheck` states the body.
- WrapperMain.Worker.CreateGroup: when the resource groups service faults, only the logged changes are stated. The exception's exact text is not stated.
- The exit code and output of `terraform plan` are not modelled. The source ignores the exit code, and a dry run reports SUCCESS whatever it is.
- `Random.nextInt(size)` in `Ec2Facade.getInstanceId` is modelled as a draw parameter taken modulo the number of candidates.
