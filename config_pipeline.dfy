/** `aws_config_pipeline.py`: turns on AWS Config in every region of a list,
    binds each region's recorder to a streaming delivery channel, and then
    creates one Kinesis Data Firehose delivery stream into Redshift in the
    first region of the list.

    Each step swallows the `ClientError` it may get, so the only thing a run
    leaves behind is the trace of calls it attempted. The account id, which
    the source looks up with STS inside every step, is a parameter here. */
module ConfigPipeline {
  import opened Provider
  import opened Arns

  const RecorderName := "default"
  const ChannelName := "default"
  const SnapshotFrequency := "One_Hour"
  const StreamType := "DirectPut"
  const RedshiftCopyOptions := "JSON 'auto'"

  /** The arguments of `setup_aws_config_pipeline` other than the region list. */
  datatype PipelineConfig = PipelineConfig(
    bucketName: string,
    firehoseName: string,
    redshiftJdbcUrl: string,
    redshiftTableName: string,
    redshiftUsername: string,
    redshiftPassword: string)

  /** How `setup_aws_config_pipeline` ends: `regions[0]` raises `IndexError`,
      or it prints its success or its failure message (it returns nothing). */
  datatype SetupEnd = IndexErrorRaised | Announced(success: bool)

  // ---------------------------------------------------------------------------
  // Request values
  // ---------------------------------------------------------------------------

  function RecorderRequest(account: string): ConfigurationRecorder
  {
    ConfigurationRecorder(RecorderName, ConfigServiceRoleArn(account), RecordingGroup(true, true))
  }

  function ChannelRequest(bucketName: string, firehoseName: string, account: string): DeliveryChannel
  {
    DeliveryChannel(ChannelName, bucketName, SnapshotFrequency, KinesisStreamArn(account, firehoseName))
  }

  function StreamDestination(cfg: PipelineConfig, account: string): RedshiftDestination
  {
    RedshiftDestination(
      FirehoseRoleArn(account),
      cfg.redshiftJdbcUrl,
      CopyCommand(cfg.redshiftTableName, RedshiftCopyOptions),
      cfg.redshiftUsername,
      cfg.redshiftPassword)
  }

  function RecorderCall(region: string, account: string): Call
  {
    PutConfigurationRecorder(region, RecorderRequest(account))
  }

  function ChannelCall(region: string, bucketName: string, firehoseName: string, account: string): Call
  {
    PutDeliveryChannel(region, ChannelRequest(bucketName, firehoseName, account))
  }

  function StreamCall(region: string, cfg: PipelineConfig, account: string): Call
  {
    CreateDeliveryStream(region, cfg.firehoseName, StreamType, StreamDestination(cfg, account))
  }

  /** The recorder is named `default`, records all supported and global resource
      types, and assumes the Config service-linked role of the caller's account,
      from which a colon-free account id can be read back. */
  lemma RecorderRequestFields(account: string)
    ensures RecorderRequest(account).name == "default"
    ensures RecorderRequest(account).recordingGroup == RecordingGroup(true, true)
    ensures RecorderRequest(account).roleArn
            == "arn:aws:iam::" + account + ":role/" + ConfigServiceRolePath
    ensures ':' !in account ==>
              Parse(IamPrefix, RoleInfix, RecorderRequest(account).roleArn) == Some((account, ConfigServiceRolePath))
  {
  }

  /** The channel is named `default`, delivers snapshots hourly to the given
      bucket, and streams to the Kinesis ARN of the caller's account and the
      Firehose stream name, from which both can be read back when the account
      id has no `:`. */
  lemma ChannelRequestFields(bucketName: string, firehoseName: string, account: string)
    ensures ChannelRequest(bucketName, firehoseName, account).name == "default"
    ensures ChannelRequest(bucketName, firehoseName, account).s3BucketName == bucketName
    ensures ChannelRequest(bucketName, firehoseName, account).deliveryFrequency == "One_Hour"
    ensures ChannelRequest(bucketName, firehoseName, account).streamArn
            == "arn:aws:kinesis::" + account + ":stream/" + firehoseName
    ensures ':' !in account ==>
              Parse(KinesisPrefix, StreamInfix, ChannelRequest(bucketName, firehoseName, account).streamArn)
              == Some((account, firehoseName))
  {
  }

  /** The delivery stream is a direct-put stream, created in the given region,
      writing with the account's `firehose_delivery_role` into the given Redshift
      table with `JSON 'auto'`, using the caller's JDBC URL and credentials. */
  lemma StreamRequestFields(region: string, cfg: PipelineConfig, account: string)
    ensures StreamCall(region, cfg, account).region == region
    ensures StreamCall(region, cfg, account).streamName == cfg.firehoseName
    ensures StreamCall(region, cfg, account).streamType == "DirectPut"
    ensures StreamCall(region, cfg, account).destination.copyCommand
            == CopyCommand(cfg.redshiftTableName, "JSON 'auto'")
    ensures StreamCall(region, cfg, account).destination.clusterJdbcUrl == cfg.redshiftJdbcUrl
    ensures StreamCall(region, cfg, account).destination.username == cfg.redshiftUsername
    ensures StreamCall(region, cfg, account).destination.password == cfg.redshiftPassword
    ensures StreamCall(region, cfg, account).destination.roleArn
            == "arn:aws:iam::" + account + ":role/" + FirehoseRolePath
    ensures ':' !in account ==>
              Parse(IamPrefix, RoleInfix, StreamCall(region, cfg, account).destination.roleArn)
              == Some((account, FirehoseRolePath))
  {
  }

  // ---------------------------------------------------------------------------
  // What each step issues, as functions of the provider's answers
  // ---------------------------------------------------------------------------

  /** Calls `enable_aws_config` issues in `region` after `history`. */
  function EnableConfigCalls(world: World, history: seq<Call>, region: string, account: string): (calls: seq<Call>)
    ensures 1 <= |calls| <= 2 && calls[0] == PutConfigurationRecorder(region, RecorderRequest(account))
    ensures |calls| == 2 <==> world(history, calls[0]).Ok?
    ensures |calls| == 2 ==> calls[1] == StartConfigurationRecorder(region, "default")
  {
    var put := RecorderCall(region, account);
    if world(history, put).Ok? then [put, StartConfigurationRecorder(region, RecorderName)] else [put]
  }

  /** Calls one iteration of the region loop issues. */
  function RegionCalls(world: World, history: seq<Call>, region: string, cfg: PipelineConfig, account: string): seq<Call>
  {
    EnableConfigCalls(world, history, region, account) + [ChannelCall(region, cfg.bucketName, cfg.firehoseName, account)]
  }

  /** Calls the region loop issues for `regions`, in list order, after `history`. */
  function LoopCalls(world: World, history: seq<Call>, regions: seq<string>, cfg: PipelineConfig, account: string): (calls: seq<Call>)
    ensures 2 * |regions| <= |calls| <= 3 * |regions|
    decreases |regions|
  {
    if regions == [] then []
    else
      var done := LoopCalls(world, history, regions[..|regions| - 1], cfg, account);
      done + RegionCalls(world, history + done, regions[|regions| - 1], cfg, account)
  }

  /** Where region `i`'s calls start in the loop's trace. */
  function Offset(world: World, history: seq<Call>, regions: seq<string>, cfg: PipelineConfig, account: string, i: nat): nat
    requires i <= |regions|
  {
    |LoopCalls(world, history, regions[..i], cfg, account)|
  }

  // ---------------------------------------------------------------------------
  // The steps and the orchestrator
  // ---------------------------------------------------------------------------

  /** `enable_aws_config`: declare the recorder; start it only if that succeeded. */
  method EnableAwsConfig(world: World, trace: seq<Call>, region: string, account: string)
    returns (trace': seq<Call>)
    ensures trace' == trace + EnableConfigCalls(world, trace, region, account)
  {
    var put := RecorderCall(region, account);
    var response := world(trace, put);
    trace' := trace + [put];
    if response.Ok? {
      // The answer to the start call is not inspected: a ClientError is caught.
      trace' := trace' + [StartConfigurationRecorder(region, RecorderName)];
    }
  }

  /** `create_streaming_delivery_channel`: one `put_delivery_channel` whose
      ClientError is caught, so the call is all that the step leaves behind. */
  method CreateStreamingDeliveryChannel(trace: seq<Call>, region: string, bucketName: string, firehoseName: string, account: string)
    returns (trace': seq<Call>)
    ensures trace' == trace + [PutDeliveryChannel(region, DeliveryChannel(
                                 "default", bucketName, "One_Hour", KinesisStreamArn(account, firehoseName)))]
  {
    trace' := trace + [ChannelCall(region, bucketName, firehoseName, account)];
  }

  /** `create_firehose_delivery_stream`: the stream's ARN on success, `None` on a ClientError. */
  method CreateFirehoseDeliveryStream(world: World, trace: seq<Call>, region: string, cfg: PipelineConfig, account: string)
    returns (trace': seq<Call>, arn: Option<string>)
    ensures trace' == trace + [StreamCall(region, cfg, account)]
    ensures world(trace, StreamCall(region, cfg, account)).Ok? ==> arn == Some(world(trace, StreamCall(region, cfg, account)).value)
    ensures world(trace, StreamCall(region, cfg, account)).Err? ==> arn == None
  {
    var call := StreamCall(region, cfg, account);
    var response := world(trace, call);
    trace' := trace + [call];
    if response.Ok? {
      arn := Some(response.value);
    } else {
      arn := None;
    }
  }

  /** `setup_aws_config_pipeline`: every region in order, then one stream in
      `regions[0]`; success is announced iff the returned ARN is truthy (present
      and non-empty). An empty list raises before any provider call. */
  method SetupAwsConfigPipeline(world: World, account: string, regions: seq<string>, cfg: PipelineConfig)
    returns (trace: seq<Call>, end: SetupEnd)
    ensures regions == [] ==> trace == [] && end == IndexErrorRaised
    ensures regions != [] ==>
              var loop := LoopCalls(world, [], regions, cfg, account);
              var stream := StreamCall(regions[0], cfg, account);
              trace == loop + [stream] &&
              end == Announced(world(loop, stream).Ok? && world(loop, stream).value != "")
  {
    trace := [];
    var i := 0;
    while i < |regions|
      invariant i <= |regions|
      invariant trace == LoopCalls(world, [], regions[..i], cfg, account)
    {
      assert regions[..i + 1][..i] == regions[..i];
      assert [] + trace == trace;
      trace := EnableAwsConfig(world, trace, regions[i], account);
      trace := CreateStreamingDeliveryChannel(trace, regions[i], cfg.bucketName, cfg.firehoseName, account);
      i := i + 1;
    }
    assert regions[..i] == regions;
    if |regions| == 0 {
      end := IndexErrorRaised;
      return;
    }
    var arn;
    trace, arn := CreateFirehoseDeliveryStream(world, trace, regions[0], cfg, account);
    end := Announced(arn.Some? && arn.value != "");
  }

  // ---------------------------------------------------------------------------
  // Properties of the region loop
  // ---------------------------------------------------------------------------

  /** The calls for the first `i` regions are a prefix of the calls for all of them. */
  lemma {:induction false} LoopPrefix(world: World, history: seq<Call>, regions: seq<string>, cfg: PipelineConfig, account: string, i: nat)
    requires i <= |regions|
    ensures LoopCalls(world, history, regions[..i], cfg, account) <= LoopCalls(world, history, regions, cfg, account)
    decreases |regions|
  {
    if i < |regions| {
      var init := regions[..|regions| - 1];
      assert init[..i] == regions[..i];
      LoopPrefix(world, history, init, cfg, account, i);
    } else {
      assert regions[..i] == regions;
    }
  }

  /** Region `i`'s calls sit between offsets `i` and `i + 1` of the trace and are
      exactly one loop iteration for `regions[i]`, given the calls before it. */
  lemma LoopBlock(world: World, history: seq<Call>, regions: seq<string>, cfg: PipelineConfig, account: string, i: nat)
    requires i < |regions|
    ensures var trace := LoopCalls(world, history, regions, cfg, account);
            var lo := Offset(world, history, regions, cfg, account, i);
            var hi := Offset(world, history, regions, cfg, account, i + 1);
            lo <= hi <= |trace| &&
            trace[lo..hi] == RegionCalls(world, history + trace[..lo], regions[i], cfg, account)
  {
    var trace := LoopCalls(world, history, regions, cfg, account);
    var before := LoopCalls(world, history, regions[..i], cfg, account);
    var block := RegionCalls(world, history + before, regions[i], cfg, account);
    LoopCallsSnoc(world, history, regions, cfg, account, i);
    LoopPrefix(world, history, regions, cfg, account, i + 1);
    PrefixBlock(trace, before, block);
  }

  /** The calls for the first `i + 1` regions are those for the first `i`, then region `i`'s iteration. */
  lemma LoopCallsSnoc(world: World, history: seq<Call>, regions: seq<string>, cfg: PipelineConfig, account: string, i: nat)
    requires i < |regions|
    ensures var before := LoopCalls(world, history, regions[..i], cfg, account);
            LoopCalls(world, history, regions[..i + 1], cfg, account)
            == before + RegionCalls(world, history + before, regions[i], cfg, account)
  {
    var firsts := regions[..i + 1];
    assert firsts[..|firsts| - 1] == regions[..i] && firsts[|firsts| - 1] == regions[i];
  }

  /** A prefix made of `before` then `block` places `block` right after `before`. */
  lemma PrefixBlock<T>(s: seq<T>, before: seq<T>, block: seq<T>)
    requires before + block <= s
    ensures |before| <= |before| + |block| <= |s|
    ensures s[..|before|] == before && s[|before|..|before| + |block|] == block
  {
    assert s[..|before| + |block|] == before + block;
  }

  /** One loop iteration: the recorder is declared first, started only if
      declaring it succeeded, and the channel is put last whatever the recorder
      step answered; every call names the iteration's region. */
  lemma RegionCallsShape(world: World, history: seq<Call>, region: string, cfg: PipelineConfig, account: string)
    ensures var block := RegionCalls(world, history, region, cfg, account);
            2 <= |block| <= 3 &&
            block[0] == PutConfigurationRecorder(region, RecorderRequest(account)) &&
            (|block| == 3 <==> world(history, block[0]).Ok?) &&
            (|block| == 3 ==> block[1] == StartConfigurationRecorder(region, "default")) &&
            block[|block| - 1] == PutDeliveryChannel(region, ChannelRequest(cfg.bucketName, cfg.firehoseName, account)) &&
            (forall k :: 0 <= k < |block| ==> block[k].region == region)
  {
  }

  /** For every region, in list order: its calls form one iteration as in
      `RegionCallsShape`, placed after region `i - 1`'s calls and before region
      `i + 1`'s. */
  lemma RegionsInOrder(world: World, history: seq<Call>, regions: seq<string>, cfg: PipelineConfig, account: string, i: nat)
    requires i < |regions|
    ensures var trace := LoopCalls(world, history, regions, cfg, account);
            var lo := Offset(world, history, regions, cfg, account, i);
            var hi := Offset(world, history, regions, cfg, account, i + 1);
            lo + 2 <= hi <= |trace| && hi <= lo + 3 &&
            trace[lo] == PutConfigurationRecorder(regions[i], RecorderRequest(account)) &&
            (hi == lo + 3 <==> world(history + trace[..lo], trace[lo]).Ok?) &&
            (hi == lo + 3 ==> trace[lo + 1] == StartConfigurationRecorder(regions[i], "default")) &&
            trace[hi - 1] == PutDeliveryChannel(regions[i], ChannelRequest(cfg.bucketName, cfg.firehoseName, account)) &&
            (forall k :: lo <= k < hi ==> trace[k].region == regions[i])
  {
    var trace := LoopCalls(world, history, regions, cfg, account);
    var lo := Offset(world, history, regions, cfg, account, i);
    var hi := Offset(world, history, regions, cfg, account, i + 1);
    LoopBlock(world, history, regions, cfg, account, i);
    var block := RegionCalls(world, history + trace[..lo], regions[i], cfg, account);
    RegionCallsShape(world, history + trace[..lo], regions[i], cfg, account);
    SliceAt(trace, lo, hi, block);
  }

  lemma SliceAt<T>(s: seq<T>, lo: nat, hi: nat, block: seq<T>)
    requires lo <= hi <= |s| && s[lo..hi] == block
    ensures forall k :: lo <= k < hi ==> s[k] == block[k - lo]
  {
  }

  /** Offsets start at 0, end at the trace's length, and each region issues two
      or three calls, so `n` regions issue between `2n` and `3n` calls. */
  lemma {:induction false} LoopSize(world: World, history: seq<Call>, regions: seq<string>, cfg: PipelineConfig, account: string)
    ensures Offset(world, history, regions, cfg, account, 0) == 0
    ensures Offset(world, history, regions, cfg, account, |regions|) == |LoopCalls(world, history, regions, cfg, account)|
    ensures 2 * |regions| <= |LoopCalls(world, history, regions, cfg, account)| <= 3 * |regions|
    decreases |regions|
  {
    assert regions[..0] == [];
    assert regions[..|regions|] == regions;
    if regions != [] {
      LoopSize(world, history, regions[..|regions| - 1], cfg, account);
    }
  }

  /** Regions named by the recorder declarations of a trace, in order. */
  function RecorderRegions(trace: seq<Call>): seq<string>
  {
    if trace == [] then []
    else (if trace[0].PutConfigurationRecorder? then [trace[0].region] else []) + RecorderRegions(trace[1..])
  }

  /** Regions named by the delivery channel puts of a trace, in order. */
  function ChannelRegions(trace: seq<Call>): seq<string>
  {
    if trace == [] then []
    else (if trace[0].PutDeliveryChannel? then [trace[0].region] else []) + ChannelRegions(trace[1..])
  }

  lemma {:induction false} RegionsOfConcat(a: seq<Call>, b: seq<Call>)
    ensures RecorderRegions(a + b) == RecorderRegions(a) + RecorderRegions(b)
    ensures ChannelRegions(a + b) == ChannelRegions(a) + ChannelRegions(b)
    decreases |a|
  {
    if a != [] {
      assert (a + b)[1..] == a[1..] + b;
      RegionsOfConcat(a[1..], b);
    } else {
      assert a + b == b;
    }
  }

  /** One iteration declares one recorder and puts one channel, both in its region. */
  lemma RegionCallsRegions(world: World, history: seq<Call>, region: string, cfg: PipelineConfig, account: string)
    ensures RecorderRegions(RegionCalls(world, history, region, cfg, account)) == [region]
    ensures ChannelRegions(RegionCalls(world, history, region, cfg, account)) == [region]
  {
    var enable := EnableConfigCalls(world, history, region, account);
    var put := enable[0];
    var channel := ChannelCall(region, cfg.bucketName, cfg.firehoseName, account);
    assert [put][1..] == [] && [channel][1..] == [];
    RegionsOfConcat(enable, [channel]);
    if |enable| == 2 {
      var start := enable[1];
      assert [start][1..] == [];
      assert enable == [put] + [start];
      RegionsOfConcat([put], [start]);
    } else {
      assert enable == [put];
    }
  }

  /** Failure isolation: whatever the provider answers, every region of the list,
      in order, gets exactly one recorder declaration and exactly one channel put. */
  lemma {:induction false} EveryRegionAttempted(world: World, history: seq<Call>, regions: seq<string>, cfg: PipelineConfig, account: string)
    ensures RecorderRegions(LoopCalls(world, history, regions, cfg, account)) == regions
    ensures ChannelRegions(LoopCalls(world, history, regions, cfg, account)) == regions
    decreases |regions|
  {
    if regions != [] {
      var init := regions[..|regions| - 1];
      var done := LoopCalls(world, history, init, cfg, account);
      var last := regions[|regions| - 1];
      EveryRegionAttempted(world, history, init, cfg, account);
      RegionsOfConcat(done, RegionCalls(world, history + done, last, cfg, account));
      RegionCallsRegions(world, history + done, last, cfg, account);
      assert init + [last] == regions;
    }
  }

  predicate IsRegionStep(c: Call)
  {
    c.PutConfigurationRecorder? || c.StartConfigurationRecorder? || c.PutDeliveryChannel?
  }

  /** The region loop issues only recorder and channel calls: it creates no
      IAM role and no delivery stream. */
  lemma {:induction false} LoopOnlyRegionSteps(world: World, history: seq<Call>, regions: seq<string>, cfg: PipelineConfig, account: string)
    ensures forall k :: 0 <= k < |LoopCalls(world, history, regions, cfg, account)| ==>
              IsRegionStep(LoopCalls(world, history, regions, cfg, account)[k])
    decreases |regions|
  {
    if regions != [] {
      var init := regions[..|regions| - 1];
      var done := LoopCalls(world, history, init, cfg, account);
      LoopOnlyRegionSteps(world, history, init, cfg, account);
      var step := RegionCalls(world, history + done, regions[|regions| - 1], cfg, account);
      assert forall k :: 0 <= k < |step| ==> IsRegionStep(step[k]);
    }
  }

  /** Barrier: in a run over a non-empty list the delivery stream is created
      exactly once, as the very last call, in `regions[0]`. */
  lemma StreamCreatedOnceLast(world: World, account: string, regions: seq<string>, cfg: PipelineConfig)
    requires regions != []
    ensures var trace := LoopCalls(world, [], regions, cfg, account) + [StreamCall(regions[0], cfg, account)];
            trace[|trace| - 1].region == regions[0] &&
            forall k :: 0 <= k < |trace| ==> (trace[k].CreateDeliveryStream? <==> k == |trace| - 1)
  {
    LoopOnlyRegionSteps(world, [], regions, cfg, account);
  }
}
