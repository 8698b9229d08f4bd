/** What happens to a tool call before anything runs: answered, queued for a person, or
    executed (convex/agentRuntimeService.ts, convex/agentRuntimeTurnService.ts,
    `canExecuteTool` in convex/aiToolExecutionService.ts). */
module ToolGate {
  import opened Common

  datatype Level = Read | Write | Destructive | External

  /** `confirmationRequired` is what the run's own context build decided. */
  datatype ToolMetadata = ToolMetadata(level: Level, confirmationRequired: bool, fromConnectedServer: bool)

  /** Why access was denied; wanting a person's confirmation is the one invitation among them. */
  datatype Denial = ConfirmationRequired | Unauthenticated | NotAdministrator | NotSuperAdmin | WrongTenant | OtherDenial(text: string)

  datatype AccessDecision = Allowed | Refused(reason: Denial)

  datatype Validation = Validation(ok: bool, errors: string)

  datatype CallStatus = Success | NotImplemented | Failed | Denied | Cancelled | Rehearsed | Pending | ApprovalRequired

  datatype Outcome = Outcome(status: CallStatus, payload: Payload)

  /** What the model is told when a call did not run. */
  datatype ErrorText = RefusedByPerson(tool: string, reason: string) | InvalidArguments(errors: string)
                     | AccessDenied(denial: Denial) | UnknownTool | NoRecordedResult | HandlerError(text: string)

  datatype Payload = ErrorPayload(error: ErrorText) | DataPayload(data: Json) | RehearsedPayload

  predicate IsConfirmationRequiredDenial(access: AccessDecision) {
    access.Refused? && access.reason == ConfirmationRequired
  }

  predicate ShouldRequestToolApproval(isRehearsalRun: bool, wasRefused: bool, schemaOk: bool, access: AccessDecision) {
    !isRehearsalRun && !wasRefused && schemaOk && !access.Allowed? && IsConfirmationRequiredDenial(access)
  }

  function ResolveToolCallWithoutExecution(toolName: string, wasRefused: bool, schema: Validation,
    isRehearsalRun: bool, metadata: Option<ToolMetadata>, access: AccessDecision): Option<Outcome>
  {
    if wasRefused then
      Some(Outcome(Denied, ErrorPayload(RefusedByPerson(toolName, ""))))
    else if !schema.ok then
      Some(Outcome(Failed, ErrorPayload(InvalidArguments(schema.errors))))
    else if isRehearsalRun && metadata.Some? && metadata.value.level != Read
            && (access.Allowed? || IsConfirmationRequiredDenial(access)) then
      Some(Outcome(Rehearsed, RehearsedPayload))
    else if access.Refused? then
      Some(Outcome(Denied, ErrorPayload(AccessDenied(access.reason))))
    else if metadata.None? then
      Some(Outcome(Failed, ErrorPayload(UnknownTool)))
    else None
  }

  /** The loop's decision for one requested call. */
  datatype Fate = Queue | Answer(outcome: Outcome) | Execute

  function CallFate(toolName: string, wasRefused: bool, schema: Validation, isRehearsalRun: bool,
    metadata: Option<ToolMetadata>, access: AccessDecision): Fate
  {
    if metadata.Some? && ShouldRequestToolApproval(isRehearsalRun, wasRefused, schema.ok, access) then Queue
    else
      var resolved := ResolveToolCallWithoutExecution(toolName, wasRefused, schema, isRehearsalRun, metadata, access);
      if resolved.Some? then Answer(resolved.value) else Execute
  }

  // -------------------------------------------------------- who may act unattended

  datatype Role = Admin | SuperAdmin | OtherRole

  datatype AgentPolicy = AgentPolicy(humanApprovalRequired: bool, autonomous: bool)

  /** A catalogue row, as far as confirmation goes. */
  datatype ToolRow = ToolRow(level: Level, configured: bool, requiresSuperAdmin: bool, onConnectedServer: bool)

  /** The caller: the run owner's role when there is an owner, and the tenant comparison. */
  datatype Caller = Caller(role: Option<Role>, sameTenant: bool)

  predicate AutonomyAppliesToTool(level: Level, fromConnectedServer: bool, agentRunsAutonomously: bool) {
    agentRunsAutonomously && !(fromConnectedServer && level != Read)
  }

  predicate GetToolConfirmationRequired(tool: ToolRow, agent: AgentPolicy) {
    if AutonomyAppliesToTool(tool.level, tool.onConnectedServer, agent.autonomous) then false
    else if agent.humanApprovalRequired then true
    else if tool.level == Read then tool.configured else true
  }

  function CanExecuteTool(requiresSuperAdmin: bool, caller: Caller, level: Level, confirmationRequired: bool,
    autonomous: bool): AccessDecision
  {
    var needsConfirmation := (level != Read || confirmationRequired) && !autonomous;
    if caller.role.None? then Refused(Unauthenticated)
    else if caller.role.value.OtherRole? then Refused(NotAdministrator)
    else if requiresSuperAdmin && caller.role.value != SuperAdmin then Refused(NotSuperAdmin)
    else if caller.role.value != SuperAdmin && !caller.sameTenant then Refused(WrongTenant)
    else if needsConfirmation then Refused(ConfirmationRequired)
    else Allowed
  }

  /** The call as the loop puts it together from the agent, the tool row and the caller. */
  function LoopFate(toolName: string, wasRefused: bool, schema: Validation, isRehearsalRun: bool,
    tool: ToolRow, agent: AgentPolicy, caller: Caller): Fate
  {
    var metadata := ToolMetadata(tool.level, GetToolConfirmationRequired(tool, agent), tool.onConnectedServer);
    var access := CanExecuteTool(tool.requiresSuperAdmin, caller, tool.level, metadata.confirmationRequired,
                                 AutonomyAppliesToTool(tool.level, tool.onConnectedServer, agent.autonomous));
    CallFate(toolName, wasRefused, schema, isRehearsalRun, Some(metadata), access)
  }

  /**
   * A tool that can change something runs unattended exactly when the agent is autonomous,
   * the tool is the platform's own, this is no rehearsal, and the call is otherwise sound:
   * the two places that decide confirmation never disagree about it.
   */
  lemma UnattendedWrite(toolName: string, wasRefused: bool, schema: Validation, isRehearsalRun: bool,
    tool: ToolRow, agent: AgentPolicy, caller: Caller)
    requires tool.level != Read
    ensures LoopFate(toolName, wasRefused, schema, isRehearsalRun, tool, agent, caller).Execute? <==>
            && agent.autonomous && !tool.onConnectedServer
            && !isRehearsalRun && !wasRefused && schema.ok
            && caller.role.Some? && !caller.role.value.OtherRole?
            && (caller.role.value == SuperAdmin || (!tool.requiresSuperAdmin && caller.sameTenant))
  {
  }

  /** A person is asked exactly when confirmation is the only thing missing. */
  lemma AsksExactlyForConfirmation(toolName: string, wasRefused: bool, schema: Validation, isRehearsalRun: bool,
    tool: ToolRow, agent: AgentPolicy, caller: Caller)
    ensures LoopFate(toolName, wasRefused, schema, isRehearsalRun, tool, agent, caller).Queue? <==>
            && !isRehearsalRun && !wasRefused && schema.ok
            && caller.role.Some? && !caller.role.value.OtherRole?
            && (caller.role.value == SuperAdmin || (!tool.requiresSuperAdmin && caller.sameTenant))
            && !(agent.autonomous && (tool.level == Read || !tool.onConnectedServer))
            && (tool.level != Read || tool.configured || agent.humanApprovalRequired)
  {
  }

  // --------------------------------------------------------------- which answer is given

  /** A call that could run, or that only a person's confirmation keeps from running. */
  predicate Admissible(access: AccessDecision) { access == Allowed || access == Refused(ConfirmationRequired) }

  predicate ChangesSomething(metadata: Option<ToolMetadata>) { metadata.Some? && metadata.value.level in {Write, Destructive, External} }

  /**
   * Each call has exactly one fate, and each fate exactly one cause. A refusal made before wins over
   * everything, then a malformed call; a drill records what it would have changed; only a confirmation
   * that is missing asks somebody; a denial is a denial, with its reason; an unknown tool is a failure.
   */
  lemma EachFateHasItsCause(toolName: string, wasRefused: bool, schema: Validation, isRehearsalRun: bool,
    metadata: Option<ToolMetadata>, access: AccessDecision)
    ensures var fate := CallFate(toolName, wasRefused, schema, isRehearsalRun, metadata, access);
            var sound, drill := !wasRefused && schema.ok, isRehearsalRun && ChangesSomething(metadata) && Admissible(access);
            && (fate == Answer(Outcome(Denied, ErrorPayload(RefusedByPerson(toolName, "")))) <==> wasRefused)
            && (fate == Answer(Outcome(Failed, ErrorPayload(InvalidArguments(schema.errors)))) <==> !wasRefused && !schema.ok)
            && (fate == Answer(Outcome(Rehearsed, RehearsedPayload)) <==> sound && drill)
            && (fate == Queue <==> sound && !isRehearsalRun && metadata.Some? && access == Refused(ConfirmationRequired))
            && (access.Refused? ==>
                  (fate == Answer(Outcome(Denied, ErrorPayload(AccessDenied(access.reason))))
                   <==> sound && !drill && (access.reason != ConfirmationRequired || isRehearsalRun || metadata.None?)))
            && (fate == Answer(Outcome(Failed, ErrorPayload(UnknownTool))) <==> sound && access == Allowed && metadata.None?)
            && (fate == Execute <==> sound && !drill && access == Allowed && metadata.Some?)
  {
  }

  /** And there is no other fate. */
  lemma NoOtherFate(toolName: string, wasRefused: bool, schema: Validation, isRehearsalRun: bool,
    metadata: Option<ToolMetadata>, access: AccessDecision)
    ensures var fate := CallFate(toolName, wasRefused, schema, isRehearsalRun, metadata, access);
            fate in {Queue, Execute, Answer(Outcome(Denied, ErrorPayload(RefusedByPerson(toolName, "")))),
                     Answer(Outcome(Failed, ErrorPayload(InvalidArguments(schema.errors)))), Answer(Outcome(Rehearsed, RehearsedPayload)),
                     Answer(Outcome(Failed, ErrorPayload(UnknownTool)))}
            || (access.Refused? && fate == Answer(Outcome(Denied, ErrorPayload(AccessDenied(access.reason)))))
  {
    EachFateHasItsCause(toolName, wasRefused, schema, isRehearsalRun, metadata, access);
  }

  /** The run's own view of which tools want a confirmation: everything an agent may not do unattended, but
      for a read that neither the tool nor the agent is set to ask about. */
  lemma ConfirmationExactly(tool: ToolRow, agent: AgentPolicy)
    ensures GetToolConfirmationRequired(tool, agent) <==>
              && !(agent.autonomous && (tool.level == Read || !tool.onConnectedServer))
              && (tool.level != Read || tool.configured || agent.humanApprovalRequired)
  {
  }

  /**
   * Who is denied, and why, in the terms of the agent, the tool and the caller: the first of these that
   * holds, and none for the callers who may go on or only want a confirmation.
   */
  lemma EachDenialHasItsReason(requiresSuperAdmin: bool, caller: Caller, level: Level, confirmationRequired: bool, autonomous: bool)
    ensures var access := CanExecuteTool(requiresSuperAdmin, caller, level, confirmationRequired, autonomous);
            var known := caller.role in {Some(Admin), Some(SuperAdmin)};
            && (access == Refused(Unauthenticated) <==> caller.role == None)
            && (access == Refused(NotAdministrator) <==> caller.role == Some(OtherRole))
            && (access == Refused(NotSuperAdmin) <==> caller.role == Some(Admin) && requiresSuperAdmin)
            && (access == Refused(WrongTenant) <==> caller.role == Some(Admin) && !requiresSuperAdmin && !caller.sameTenant)
            && (access == Refused(ConfirmationRequired) <==>
                  && known && (caller.role == Some(Admin) ==> !requiresSuperAdmin && caller.sameTenant)
                  && !autonomous && (level != Read || confirmationRequired))
            && (access == Allowed <==>
                  && known && (caller.role == Some(Admin) ==> !requiresSuperAdmin && caller.sameTenant)
                  && (autonomous || (level == Read && !confirmationRequired)))
  {
  }
}
