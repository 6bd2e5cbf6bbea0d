# AWS Config to Redshift provisioning — a Dafny model

This project models the provisioning scripts of a pipeline that streams AWS Config
records into a Redshift table:

- `aws_config_pipeline.py`. `setup_aws_config_pipeline` loops over a list of regions.
  In each region it declares and starts the configuration recorder (`enable_aws_config`)
  and then puts a streaming delivery channel (`create_streaming_delivery_channel`).
  After the loop it creates one Kinesis Data Firehose delivery stream into Redshift
  in `regions[0]` (`create_firehose_delivery_stream`).
- `automation_script.py`. `create_iam_roles` creates `AWSConfigRole` and then
  `FirehoseDeliveryRole`, attaching a managed policy to each role it creates.
  `main` runs it, then writes the CloudFormation template and submits the stack.
- `aws_config_schema_design.py`. The warehouse table's schema, and the
  `CREATE TABLE` and `CREATE INDEX` text generated from it.

Every external call is a `Provider.Call` value. The provider is a `World`: an
arbitrary function from the calls already issued and the call being issued to
`Ok(value)` or `Err(code)`. `Err(code)` stands for a botocore `ClientError` with
that error code. Exceptions of other kinds are not modelled (see "Left out"). Each script procedure is a method. It returns the calls it
attempted, in order, as a trace. Each method is proved equal to a specification
function of the provider's answers (`LoopCalls`, `RoleStep`, `IamRolesRun`). The
ordering, isolation and "exactly once" properties are lemmas about those functions,
and they hold for every `World`. The account id is a plain parameter. The source
reads it from STS.

Facts about the code that the model keeps:
- The code builds no per-region report.
- The channel step runs even when declaring or starting the recorder failed.
- `setup_aws_config_pipeline` returns nothing. It only prints whether the stream ARN
  was truthy. `SetupEnd.Announced(success)` records which message is printed.
- `setup_aws_config_pipeline` creates no IAM roles.
- An empty region list is not rejected up front. It makes no provider call and
  then raises `IndexError` at `regions[0]`.
- In `create_iam_roles`, `attach_role_policy` sits in the same `try` block as
  `create_role`. So an `EntityAlreadyExists` from either call is benign, and any
  other code from either call is re-raised.

`SchemaDesign.CreateIndexSql` writes the index f-string as four uses of one
statement template. Its characters are exactly those of the source text.

The generators in `SchemaDesign` are functions on immutable values. They cannot
change the schema passed to them.

The ARN lemmas assume an account id without a `:`. AWS account ids are twelve
digits, and an id containing `:` would make the ARN ambiguous.

## Model

| member | source | states |
|---|---|---|
| `Arns.ParseFormat` | aws_config_pipeline.py:36 | An ARN built as prefix, account, `:`-led infix and resource parses back to exactly that account and resource. |
| `Arns.FormatParse` | aws_config_pipeline.py:36 | Whatever parses is exactly the ARN formatted from the parsed parts, with a colon-free account. This is the converse of `ParseFormat`. |
| `Arns.ConfigServiceRoleArn` | aws_config_pipeline.py:12 | The recorder's role ARN. For a colon-free account it reads back as that account and the Config service-linked role path. |
| `Arns.FirehoseRoleArn` | aws_config_pipeline.py:52 | The Firehose role ARN. For a colon-free account it reads back as that account and `firehose_delivery_role`. |
| `Arns.KinesisStreamArn` | aws_config_pipeline.py:36 | The channel's stream ARN. For a colon-free account it reads back as that account and the Firehose stream name. |
| `Arns.KinesisStreamArnInjective` | aws_config_pipeline.py:36 | Different (account, stream name) pairs never give the same channel stream ARN. |
| `ConfigPipeline.RecorderRequestFields` | aws_config_pipeline.py:9-17 | For every account id: the recorder is named `default`, its `allSupported` and `includeGlobalResourceTypes` are both true, and its role ARN is exactly the line-12 string. A colon-free account id reads back from that ARN. |
| `ConfigPipeline.ChannelRequestFields` | aws_config_pipeline.py:28-38 | For every account id: the channel is named `default`, uses the given bucket and `One_Hour` frequency, and streams to exactly `"arn:aws:kinesis::" + account + ":stream/" + firehose_name`. A colon-free account id and the stream name read back from that ARN. |
| `ConfigPipeline.StreamRequestFields` | aws_config_pipeline.py:48-60 | For every account id: the stream is created in the given region, is `DirectPut` and uses the given name. It copies into the given table with `JSON 'auto'`, using exactly the line-52 role ARN and the caller's JDBC URL, username and password, each in its own field. A colon-free account id reads back from that ARN. |
| `ConfigPipeline.EnableConfigCalls` | aws_config_pipeline.py:8-19 | The calls `enable_aws_config` makes: the recorder put first, then the start call exactly when the put was answered `Ok`. |
| `ConfigPipeline.LoopCalls` | aws_config_pipeline.py:72-74 | The calls the region loop makes, one iteration per region in list order. `n` regions make between `2n` and `3n` calls. |
| `ConfigPipeline.EnableAwsConfig` | aws_config_pipeline.py:5-22 | Issues `put_configuration_recorder`. It issues `start_configuration_recorder('default')` only if the put succeeded. Errors are swallowed. |
| `ConfigPipeline.CreateStreamingDeliveryChannel` | aws_config_pipeline.py:24-42 | Issues exactly one `put_delivery_channel` with the default/bucket/One_Hour/stream-ARN channel. Its error is swallowed. |
| `ConfigPipeline.CreateFirehoseDeliveryStream` | aws_config_pipeline.py:44-66 | Issues one `create_delivery_stream`. Returns the ARN on success and `None` on a ClientError. |
| `ConfigPipeline.SetupAwsConfigPipeline` | aws_config_pipeline.py:68-82 | An empty list makes no call and raises `IndexError`. Otherwise: the region loop's calls, then one stream creation in `regions[0]`. Success is announced iff that returned a non-empty ARN. |
| `ConfigPipeline.LoopPrefix` | aws_config_pipeline.py:72-74 | The calls for the first `i` regions are a prefix of the calls for the whole list. |
| `ConfigPipeline.LoopBlock` | aws_config_pipeline.py:72-74 | Region `i`'s calls lie between offsets `i` and `i + 1`. They are exactly one iteration for `regions[i]`, given all earlier calls. |
| `ConfigPipeline.RegionCallsShape` | aws_config_pipeline.py:5-42 | One iteration: recorder put first, start iff the put succeeded, channel put last whatever the recorder step answered. Every call names the region. |
| `ConfigPipeline.RegionsInOrder` | aws_config_pipeline.py:72-74 | For every region in list order, the recorder step comes before that region's channel step. All of region `i`'s calls come before region `i + 1`'s. |
| `ConfigPipeline.LoopSize` | aws_config_pipeline.py:72-74 | Offsets run from 0 to the trace length. `n` regions issue between `2n` and `3n` calls. |
| `ConfigPipeline.EveryRegionAttempted` | aws_config_pipeline.py:72-74 | Whatever the provider answers, every listed region gets exactly one recorder declaration and exactly one channel put, in list order. A `ClientError` never stops the loop. |
| `ConfigPipeline.LoopOnlyRegionSteps` | aws_config_pipeline.py:68-74 | The loop issues only recorder and channel calls. It creates no IAM role and no stream. |
| `ConfigPipeline.StreamCreatedOnceLast` | aws_config_pipeline.py:76-77 | The delivery stream is created exactly once, as the last call, after all regions, in `regions[0]`. |
| `Automation.Classify` | automation_script.py:35-39 | The `except ClientError` clause: the error is swallowed exactly when its code is `EntityAlreadyExists`. Otherwise the same code is re-raised. |
| `Automation.RoleStep` | automation_script.py:25-39 | One role's `try` block as a function of the provider's answers. It always starts with `create_role`, makes one or two calls, and never re-raises `EntityAlreadyExists`. |
| `Automation.IamRolesRun` | automation_script.py:7-70 | A `create_iam_roles` run as a function of the provider's answers. It starts by creating `AWSConfigRole`, makes one to four calls, and never re-raises `EntityAlreadyExists`. |
| `Automation.EnsureRole` | automation_script.py:25-39 | One role's try block: create, then attach only if the create succeeded. `EntityAlreadyExists` is swallowed. Any other code is re-raised. |
| `Automation.CreateIamRoles` | automation_script.py:7-70 | `AWSConfigRole`'s block, then `FirehoseDeliveryRole`'s block unless the first re-raised. |
| `Automation.RunMain` | automation_script.py:148-163 | Role provisioning runs first. If it raised, nothing else happens. Otherwise the template is written and the stack submitted, and the run completes whatever the stack call answers. |
| `Automation.TrustPoliciesSingleStatement` | automation_script.py:12-54 | Each trust policy has exactly one statement allowing `sts:AssumeRole` to one service: config for the first role, firehose for the second. |
| `Automation.RoleStepAttachOnlyAfterCreate` | automation_script.py:25-33 | `attach_role_policy` is called iff `create_role` succeeded. A role that already exists gets no attach. |
| `Automation.RoleStepRaises` | automation_script.py:35-39 | A block re-raises iff one of its calls failed with a code other than `EntityAlreadyExists`. The re-raised code is the last call's code. |
| `Automation.AttachFollowsSuccessfulCreate` | automation_script.py:25-64 | In a whole run, every attach comes right after a successful creation of the same role. |
| `Automation.RolesInFixedOrder` | automation_script.py:11-70 | The run starts by creating `AWSConfigRole`. Every `FirehoseDeliveryRole` call comes after every `AWSConfigRole` call. |
| `Automation.IamRolesRunRaises` | automation_script.py:25-70 | A whole run re-raises iff some call on either role failed with a code other than `EntityAlreadyExists`. The re-raised code is the last call's code. |
| `Automation.ExistingConfigRoleSkipsToNext` | automation_script.py:25-57 | When the Config role's block does not re-raise, its calls are followed directly by the creation of `FirehoseDeliveryRole`. `EntityAlreadyExists` on creating the Config role gives no attach for it. |
| `Automation.OtherConfigRoleErrorAborts` | automation_script.py:25-42 | A re-raise on the Config role, from `create_role` or from `attach_role_policy`, ends the run. The run is that block alone, and `FirehoseDeliveryRole` is never attempted. |
| `SchemaDesign.DefineAwsConfigSchema` | aws_config_schema_design.py:1-13 | The schema value: table `aws_config_resources`, six columns, no two with the same name. |
| `SchemaDesign.AwsConfigSchemaShape` | aws_config_schema_design.py:1-13 | The table is `aws_config_resources`, with exactly six columns in a fixed order and all names distinct. |
| `SchemaDesign.IndexedColumnsInSchema` | aws_config_schema_design.py:31-36 | The four indexed columns are distinct, and each is a column of the defined schema. |
| `SchemaDesign.Join` | aws_config_schema_design.py:19 | Python's `sep.join(parts)`. A non-empty join starts with its first part. |
| `SchemaDesign.ColumnDefinition` | aws_config_schema_design.py:19 | One column's definition: its name, one space, then its type. |
| `SchemaDesign.JoinAppend` | aws_config_schema_design.py:19 | Joining two non-empty part lists puts exactly one separator at the seam. |
| `SchemaDesign.JoinAround` | aws_config_schema_design.py:19 | Part `i` sits between the join of the earlier parts and the join of the later parts, with one separator on each side that has parts. |
| `SchemaDesign.JoinLength` | aws_config_schema_design.py:19 | The joined length is the parts' total length plus `n - 1` separators. |
| `SchemaDesign.JoinDegenerate` | aws_config_schema_design.py:19 | An empty list joins to the empty string. One part joins to itself. |
| `SchemaDesign.GenerateCreateTableSql` | aws_config_schema_design.py:15-27 | The CREATE TABLE text. The first column's definition comes right after the opening, and the text ends with the f-string's closing. |
| `SchemaDesign.CreateTableOpens` | aws_config_schema_design.py:21-22 | The text holds `CREATE TABLE <table> (` right after one `Indent`, the f-string's leading newline and indentation. |
| `SchemaDesign.CreateTableCloses` | aws_config_schema_design.py:24-25 | The text ends with `);` followed by one `Indent` (a newline and four spaces), the f-string's trailing newline and indentation. |
| `SchemaDesign.CreateTableColumnAt` | aws_config_schema_design.py:15-27 | Between the opening and the closing sits the in-order `",\n    "` join of `name type`. Each column is preceded by the earlier columns' definitions and followed by the later ones. |
| `SchemaDesign.CreateIndexSql` | aws_config_schema_design.py:29-36 | The index text is exactly four `CREATE INDEX` statements, on `resource_id`, `resource_type`, `region` and `capture_time`. They are joined and padded by the f-string's newline and indentation. |

## Left out

- STS `get_caller_identity`: the account id is a parameter. The source calls STS inside each `try` block, so an STS `ClientError` would also be swallowed there. That path is not modelled.
- `boto3.Session` and client construction, and every `print` message. The one exception is which of the two final messages `setup_aws_config_pipeline` prints.
- A `create_delivery_stream` response without `DeliveryStreamARN`, which would raise `KeyError`. The model assumes a successful response carries the ARN.
- `json.dumps` of the trust policies: each policy is kept as a structured value, not as JSON text.
- `create_cloudformation_template` and `deploy_cloudformation_stack`. They are a constant document, a file write and a file read. `main` records them only as a `WriteTemplateFile` trace event and one `CreateStack` call with the stack name, template file, parameters and capability. Failures of the file I/O are not modelled.
- `subprocess.run` of the schema script at the end of `main`, and the `main` of `aws_config_schema_design.py`, which only prints.
- `natural_language_query_agent.py`: a text-generation call, a database query and console I/O. Nothing there is verifiable.
- Exceptions other than `ClientError`, for example botocore's `NoCredentialsError`, `EndpointConnectionError` or `ParamValidationError`. The code does not catch them, so one would end the step, the loop and the run. The model has no such outcome, and the loop properties hold only for runs in which every failure is a `ClientError`.
- Concurrency, cancellation, retries and a structured run report. The code has none of them.
- The role names differ between files (`firehose_delivery_role` vs `FirehoseDeliveryRole`, the service-linked Config role vs `AWSConfigRole`). The model keeps the strings as written and proves nothing about whether they match in AWS.
