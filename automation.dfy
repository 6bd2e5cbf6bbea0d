/** `automation_script.py`: `create_iam_roles` creates the AWS Config role and
    then the Firehose delivery role, attaching a managed policy to each role it
    creates; `main` runs it before writing the CloudFormation template and
    submitting the stack.

    Inside a role's `try` block both `create_role` and `attach_role_policy` may
    raise; a `ClientError` whose code is `EntityAlreadyExists` is benign, any
    other code is re-raised and ends the run. */
module Automation {
  import opened Provider

  const EntityAlreadyExists := "EntityAlreadyExists"
  const PolicyVersion := "2012-10-17"
  const TemplateFile := "aws_config_pipeline_template.json"
  const StackName := "AWSConfigPipeline"

  /** A role `create_iam_roles` provisions: its name, the service trusted to
      assume it, and the managed policy attached on creation. */
  datatype RoleSpec = RoleSpec(name: string, service: string, managedPolicyArn: string)

  /** Calls a step issued, and the code of the `ClientError` it raised, if any. */
  datatype Step = Step(calls: seq<Call>, raised: Option<string>)

  /** How `main` ends: normally, or with the exception `create_iam_roles` re-raised. */
  datatype MainEnd = Completed | Raised(code: string)

  const ConfigRole := RoleSpec(
    "AWSConfigRole", "config.amazonaws.com", "arn:aws:iam::aws:policy/service-role/AWSConfigRole")
  const FirehoseRole := RoleSpec(
    "FirehoseDeliveryRole", "firehose.amazonaws.com", "arn:aws:iam::aws:policy/service-role/AWSConfigRoleForOrganizations")

  /** The trust policy letting `service` assume the role. */
  function TrustPolicyFor(service: string): TrustPolicy
  {
    TrustPolicy(PolicyVersion, [Statement("Allow", service, "sts:AssumeRole")])
  }

  function CreateCall(role: RoleSpec): Call
  {
    CreateRole(role.name, TrustPolicyFor(role.service))
  }

  function AttachCall(role: RoleSpec): Call
  {
    AttachRolePolicy(role.name, role.managedPolicyArn)
  }

  /** The `except ClientError` clause: `EntityAlreadyExists` is swallowed, anything else re-raised. */
  function Classify(code: string): (raised: Option<string>)
    ensures raised.None? <==> code == EntityAlreadyExists
    ensures raised.Some? ==> raised.value == code
  {
    if code == EntityAlreadyExists then None else Some(code)
  }

  /** One role's `try` block after `history`: create the role and, only if that
      succeeded, attach its managed policy. */
  function RoleStep(world: World, history: seq<Call>, role: RoleSpec): (step: Step)
    ensures 1 <= |step.calls| <= 2 && step.calls[0] == CreateCall(role)
    ensures step.raised.Some? ==> step.raised.value != EntityAlreadyExists
  {
    var created := world(history, CreateCall(role));
    if created.Err? then Step([CreateCall(role)], Classify(created.code))
    else
      var attached := world(history + [CreateCall(role)], AttachCall(role));
      Step([CreateCall(role), AttachCall(role)], if attached.Err? then Classify(attached.code) else None)
  }

  /** `create_iam_roles` after `history`: the Config role, then the Firehose role
      unless the first block re-raised. */
  function IamRolesRun(world: World, history: seq<Call>): (run: Step)
    ensures 1 <= |run.calls| <= 4 && run.calls[0] == CreateCall(ConfigRole)
    ensures run.raised.Some? ==> run.raised.value != EntityAlreadyExists
  {
    var first := RoleStep(world, history, ConfigRole);
    if first.raised.Some? then first
    else
      var second := RoleStep(world, history + first.calls, FirehoseRole);
      Step(first.calls + second.calls, second.raised)
  }

  /** The parameters `main` submits with the stack. */
  function StackParameters(): seq<StackParameter>
  {
    [ StackParameter("RedshiftClusterJDBCURL", "your_redshift_jdbc_url"),
      StackParameter("RedshiftUsername", "your_redshift_username"),
      StackParameter("RedshiftPassword", "your_redshift_password") ]
  }

  function StackCall(): Call
  {
    CreateStack(StackName, TemplateFile, StackParameters(), ["CAPABILITY_NAMED_IAM"])
  }

  // ---------------------------------------------------------------------------
  // The script's procedures
  // ---------------------------------------------------------------------------

  /** One role's `try` block of `create_iam_roles`. */
  method EnsureRole(world: World, trace: seq<Call>, role: RoleSpec)
    returns (trace': seq<Call>, raised: Option<string>)
    ensures trace' == trace + RoleStep(world, trace, role).calls
    ensures raised == RoleStep(world, trace, role).raised
  {
    var create := CreateRole(role.name, TrustPolicyFor(role.service));
    var created := world(trace, create);
    trace' := trace + [create];
    if created.Err? {
      raised := Classify(created.code);
      return;
    }
    var attach := AttachRolePolicy(role.name, role.managedPolicyArn);
    var attached := world(trace', attach);
    trace' := trace' + [attach];
    raised := if attached.Err? then Classify(attached.code) else None;
  }

  /** `create_iam_roles`. */
  method CreateIamRoles(world: World, trace: seq<Call>)
    returns (trace': seq<Call>, raised: Option<string>)
    ensures trace' == trace + IamRolesRun(world, trace).calls
    ensures raised == IamRolesRun(world, trace).raised
  {
    trace', raised := EnsureRole(world, trace, ConfigRole);
    if raised.Some? {
      return;
    }
    ghost var afterFirst := trace';
    trace', raised := EnsureRole(world, trace', FirehoseRole);
    assert trace' == trace + (afterFirst[|trace|..] + trace'[|afterFirst|..]);
  }

  /** `main`: the roles first; if that raised, nothing else happens. Otherwise
      the template is written and the stack submitted, and the run completes
      whatever the provider answers to the stack submission. */
  method RunMain(world: World) returns (trace: seq<Call>, end: MainEnd)
    ensures var roles := IamRolesRun(world, []);
            if roles.raised.Some? then trace == roles.calls && end == Raised(roles.raised.value)
            else trace == roles.calls + [WriteTemplateFile(TemplateFile), StackCall()] && end == Completed
  {
    var raised;
    trace, raised := CreateIamRoles(world, []);
    if raised.Some? {
      end := Raised(raised.value);
      return;
    }
    trace := trace + [WriteTemplateFile(TemplateFile)];
    // deploy_cloudformation_stack catches the ClientError and only reports it,
    // so the provider's answer to the stack submission is not consulted.
    trace := trace + [StackCall()];
    end := Completed;
  }

  // ---------------------------------------------------------------------------
  // Properties
  // ---------------------------------------------------------------------------

  /** Each trust policy has exactly one statement, allowing `sts:AssumeRole` to
      one service principal: `config.amazonaws.com` for the Config role and
      `firehose.amazonaws.com` for the delivery role. */
  lemma TrustPoliciesSingleStatement()
    ensures CreateCall(ConfigRole).trustPolicy.statements == [Statement("Allow", "config.amazonaws.com", "sts:AssumeRole")]
    ensures CreateCall(FirehoseRole).trustPolicy.statements == [Statement("Allow", "firehose.amazonaws.com", "sts:AssumeRole")]
  {
  }

  /** Within a role's block, the policy is attached only right after a
      successful `create_role`: a role that already exists gets no attach. */
  lemma RoleStepAttachOnlyAfterCreate(world: World, history: seq<Call>, role: RoleSpec)
    ensures var step := RoleStep(world, history, role);
            step.calls[0] == CreateCall(role) &&
            (AttachCall(role) in step.calls <==> world(history, CreateCall(role)).Ok?) &&
            (world(history, CreateCall(role)).Ok? ==> step.calls == [CreateCall(role), AttachCall(role)])
  {
  }

  /** A block re-raises exactly when one of its calls fails with a code other
      than `EntityAlreadyExists`, and then re-raises that code. */
  lemma RoleStepRaises(world: World, history: seq<Call>, role: RoleSpec)
    ensures var step := RoleStep(world, history, role);
            step.raised.Some? <==>
              exists k :: 0 <= k < |step.calls| &&
                world(history + step.calls[..k], step.calls[k]).Err? &&
                world(history + step.calls[..k], step.calls[k]).code != EntityAlreadyExists
    ensures var step := RoleStep(world, history, role);
            var last := |step.calls| - 1;
            step.raised.Some? ==>
              world(history + step.calls[..last], step.calls[last]).Err? &&
              step.raised == Some(world(history + step.calls[..last], step.calls[last]).code)
  {
    var step := RoleStep(world, history, role);
    assert step.calls[..0] == [];
    assert history + [] == history;
    if |step.calls| == 2 {
      assert step.calls[..1] == [CreateCall(role)];
    }
  }

  /** Attach calls in a `create_iam_roles` run each come right after a
      successful creation of the same role. */
  lemma AttachFollowsSuccessfulCreate(world: World, history: seq<Call>)
    ensures var calls := IamRolesRun(world, history).calls;
            forall k :: 0 <= k < |calls| && calls[k].AttachRolePolicy? ==>
              0 < k && calls[k - 1] == CreateRole(calls[k].roleName, calls[k - 1].trustPolicy) &&
              world(history + calls[..k - 1], calls[k - 1]).Ok?
  {
    var first := RoleStep(world, history, ConfigRole);
    var calls := IamRolesRun(world, history).calls;
    assert calls[..0] == [];
    assert history + [] == history;
    if first.raised.None? {
      var second := RoleStep(world, history + first.calls, FirehoseRole);
      assert calls == first.calls + second.calls;
      assert calls[..|first.calls|] == first.calls;
    }
  }

  /** Roles are processed in fixed order: the run starts by creating
      `AWSConfigRole`, and every `FirehoseDeliveryRole` call comes after every
      `AWSConfigRole` call. */
  lemma RolesInFixedOrder(world: World, history: seq<Call>)
    ensures var calls := IamRolesRun(world, history).calls;
            calls[0] == CreateRole("AWSConfigRole", TrustPolicyFor("config.amazonaws.com")) &&
            forall i, j ::
              (0 <= i < |calls| && 0 <= j < |calls| &&
               calls[i].roleName == "AWSConfigRole" && calls[j].roleName == "FirehoseDeliveryRole") ==> i < j
  {
    var first := RoleStep(world, history, ConfigRole);
    var calls := IamRolesRun(world, history).calls;
    assert forall k :: 0 <= k < |first.calls| ==> first.calls[k].roleName == "AWSConfigRole";
    if first.raised.None? {
      var second := RoleStep(world, history + first.calls, FirehoseRole);
      assert forall k :: 0 <= k < |second.calls| ==> second.calls[k].roleName == "FirehoseDeliveryRole";
      assert calls == first.calls + second.calls;
    }
  }

  /** A whole `create_iam_roles` run re-raises exactly when one of its calls,
      on either role, fails with a code other than `EntityAlreadyExists`, and
      then re-raises the last call's code. */
  lemma IamRolesRunRaises(world: World, history: seq<Call>)
    ensures var run := IamRolesRun(world, history);
            run.raised.Some? <==>
              exists k :: 0 <= k < |run.calls| &&
                world(history + run.calls[..k], run.calls[k]).Err? &&
                world(history + run.calls[..k], run.calls[k]).code != EntityAlreadyExists
    ensures var run := IamRolesRun(world, history);
            var last := |run.calls| - 1;
            run.raised.Some? ==>
              world(history + run.calls[..last], run.calls[last]).Err? &&
              run.raised == Some(world(history + run.calls[..last], run.calls[last]).code)
  {
    var first := RoleStep(world, history, ConfigRole);
    var run := IamRolesRun(world, history);
    RoleStepRaises(world, history, ConfigRole);
    if first.raised.None? {
      var mid := history + first.calls;
      var second := RoleStep(world, mid, FirehoseRole);
      RoleStepRaises(world, mid, FirehoseRole);
      assert run.calls == first.calls + second.calls;
      forall k | 0 <= k < |run.calls|
        ensures k < |first.calls| ==>
                  history + run.calls[..k] == history + first.calls[..k] && run.calls[k] == first.calls[k]
        ensures k >= |first.calls| ==>
                  history + run.calls[..k] == mid + second.calls[..k - |first.calls|] &&
                  run.calls[k] == second.calls[k - |first.calls|]
      {
        if k < |first.calls| {
          assert run.calls[..k] == first.calls[..k];
        } else {
          assert run.calls[..k] == first.calls + second.calls[..k - |first.calls|];
        }
      }
      if second.raised.Some? {
        var j :| 0 <= j < |second.calls| &&
                 world(mid + second.calls[..j], second.calls[j]).Err? &&
                 world(mid + second.calls[..j], second.calls[j]).code != EntityAlreadyExists;
        assert run.calls[|first.calls| + j] == second.calls[j];
      }
    }
  }

  /** A Config role block that does not re-raise (it succeeded, or failed only
      with `EntityAlreadyExists` on either call) is followed directly by the
      Firehose role's block. In particular, `EntityAlreadyExists` on creating
      the Config role attaches no policy to it and goes on to create the
      Firehose role. */
  lemma ExistingConfigRoleSkipsToNext(world: World, history: seq<Call>)
    requires RoleStep(world, history, ConfigRole).raised.None?
    ensures var first := RoleStep(world, history, ConfigRole);
            var calls := IamRolesRun(world, history).calls;
            |calls| > |first.calls| && calls[..|first.calls|] == first.calls &&
            calls[|first.calls|] == CreateCall(FirehoseRole)
    ensures world(history, CreateCall(ConfigRole)) == Err(EntityAlreadyExists) ==>
              var calls := IamRolesRun(world, history).calls;
              calls[0] == CreateCall(ConfigRole) && calls[1] == CreateCall(FirehoseRole) &&
              AttachCall(ConfigRole) !in calls
  {
    var first := RoleStep(world, history, ConfigRole);
    var second := RoleStep(world, history + first.calls, FirehoseRole);
    var calls := IamRolesRun(world, history).calls;
    assert calls == first.calls + second.calls;
    assert calls[..|first.calls|] == first.calls;
    if world(history, CreateCall(ConfigRole)) == Err(EntityAlreadyExists) {
      assert first.calls == [CreateCall(ConfigRole)];
      assert AttachCall(ConfigRole) !in second.calls;
    }
  }

  /** A Config role block that re-raises, from `create_role` or from
      `attach_role_policy`, ends the run: the run is that block alone and never
      touches `FirehoseDeliveryRole`. */
  lemma OtherConfigRoleErrorAborts(world: World, history: seq<Call>)
    requires RoleStep(world, history, ConfigRole).raised.Some?
    ensures IamRolesRun(world, history) == RoleStep(world, history, ConfigRole)
    ensures forall k :: 0 <= k < |IamRolesRun(world, history).calls| ==>
              IamRolesRun(world, history).calls[k].roleName != "FirehoseDeliveryRole"
    ensures world(history, CreateCall(ConfigRole)).Err? ==>
              IamRolesRun(world, history)
              == Step([CreateCall(ConfigRole)], Some(world(history, CreateCall(ConfigRole)).code))
  {
  }
}
