/**
 * The build trigger attached to one job (AmqpBuildTrigger.java): turning a
 * received message into the job's build parameters and asking the scheduler
 * for a build.
 *
 * The mapping walks the job's parameter definitions in order, never the
 * message: for each definition that has a default value it looks the
 * upper-cased parameter name up in the message object and produces a boolean
 * value for a boolean definition and a string value for every other kind,
 * falling back to the default when the member is missing or unusable. Members
 * of the message that name no definition are ignored.
 */
module Trigger {
  import opened Wrappers
  import opened Text
  import opened Json

  /** The kind of a parameter definition; only "boolean or not" matters here. */
  datatype Kind = BooleanKind | StringKind | ChoiceKind | OtherKind

  /** The object a default parameter value holds (`ParameterValue.getValue`). */
  datatype Scalar = BoolScalar(b: bool) | TextScalar(text: string)

  /** `ParameterDefinition.getDefaultParameterValue`: a name and a value that may be null. */
  datatype DefaultParam = DefaultParam(name: string, value: Option<Scalar>)

  /** One parameter definition of the job; its default parameter may be null. */
  datatype ParamDef = ParamDef(kind: Kind, defaultParam: Option<DefaultParam>)

  /** The type tag passed to the per-parameter lookup ("string" or "bool"). */
  datatype ParamType = StringType | BoolType

  /** A parameter value handed to the scheduler. */
  datatype ParamValue =
    | StringParam(name: string, text: string)
    | BooleanParam(name: string, flag: bool)

  /**
   * The job a trigger is attached to: its full name and its parameter
   * definitions, or None when it has no parameters property.
   */
  datatype Job = Job(fullName: string, schema: Option<seq<ParamDef>>)

  /**
   * One call of the scheduler: the job, the remote cause (the message source)
   * and the parameters action, absent when the build is requested without one.
   */
  datatype BuildRequest = BuildRequest(job: Job, cause: string, parameters: Option<seq<ParamValue>>)

  /** `toString` of a default value. */
  function ScalarText(v: Scalar): string {
    match v
    case BoolScalar(b) => if b then "true" else "false"
    case TextScalar(t) => t
  }

  /**
   * A boolean definition's default holds a Boolean: the lookup casts it, and
   * Jenkins' boolean parameter definitions always give one.
   */
  predicate WellTyped(d: ParamDef) {
    d.kind == BooleanKind && d.defaultParam.Some? && d.defaultParam.value.value.Some? ==>
      d.defaultParam.value.value.value.BoolScalar?
  }

  predicate WellTypedSchema(defs: seq<ParamDef>) {
    forall i :: 0 <= i < |defs| ==> WellTyped(defs[i])
  }

  /** The type tag a definition is looked up with: "bool" for boolean definitions, "string" for all others. */
  function TypeOf(d: ParamDef): ParamType {
    if d.kind == BooleanKind then BoolType else StringType
  }

  /**
   * `getParamValueFromPayload`: the value of one parameter. None when the name
   * is empty or the default value is null; otherwise a value named `paramName`
   * of the requested type, taken from the message when present and usable and
   * from the default otherwise.
   */
  function ParamValueFromPayload(payload: JsonObject, paramName: string, paramType: ParamType,
                                 defaultParam: DefaultParam): (r: Option<ParamValue>)
    requires paramType == BoolType && defaultParam.value.Some? ==> defaultParam.value.value.BoolScalar?
    ensures r.Some? <==> paramName != [] && defaultParam.value.Some?
    ensures r.Some? ==> r.value.name == paramName && (r.value.BooleanParam? <==> paramType == BoolType)
    ensures r.Some? && paramType == StringType ==>
      r.value.text == if paramName in payload then ToText(payload[paramName])
                      else ScalarText(defaultParam.value.value)
    ensures r.Some? && paramType == BoolType ==>
      r.value.flag == if paramName in payload && AsBoolean(payload[paramName]).Some?
                      then AsBoolean(payload[paramName]).value
                      else defaultParam.value.value.b
  {
    if paramName == [] then None
    else
      match defaultParam.value
      case None => None
      case Some(dv) =>
        match paramType
        case StringType => Some(StringParam(paramName, OptString(payload, paramName, ScalarText(dv))))
        case BoolType => Some(BooleanParam(paramName, OptBoolean(payload, paramName, dv.b)))
  }

  /**
   * What one definition contributes to the parameter list: nothing when its
   * default parameter is null, else the lookup under the upper-cased name.
   */
  function Resolve(d: ParamDef, payload: JsonObject): (r: Option<ParamValue>)
    requires WellTyped(d)
    ensures r.None? <==>
      d.defaultParam.None? || d.defaultParam.value.value.None? || d.defaultParam.value.name == []
    ensures r.Some? ==> r.value.name == UpperCase(d.defaultParam.value.name)
    ensures r.Some? ==> (r.value.BooleanParam? <==> d.kind == BooleanKind)
  {
    match d.defaultParam
    case None => None
    case Some(dp) => ParamValueFromPayload(payload, UpperCase(dp.name), TypeOf(d), dp)
  }

  function Contribution(d: ParamDef, payload: JsonObject): seq<ParamValue>
    requires WellTyped(d)
  {
    match Resolve(d, payload)
    case None => []
    case Some(v) => [v]
  }

  /** The parameter list for a whole schema: the definitions' contributions, in schema order. */
  function ParamsFromPayload(defs: seq<ParamDef>, payload: JsonObject): seq<ParamValue>
    requires WellTypedSchema(defs)
  {
    if defs == [] then []
    else ParamsFromPayload(defs[..|defs| - 1], payload) + Contribution(defs[|defs| - 1], payload)
  }

  /** The parameter list for a job that may have no parameters property. */
  function ParamsFor(schema: Option<seq<ParamDef>>, payload: JsonObject): seq<ParamValue>
    requires schema.Some? ==> WellTypedSchema(schema.value)
  {
    match schema
    case None => []
    case Some(defs) => ParamsFromPayload(defs, payload)
  }

  /** The message keys the schema looks up: the upper-cased names of the definitions that have a default parameter. */
  function LookupKeys(defs: seq<ParamDef>): set<string> {
    set i | 0 <= i < |defs| && defs[i].defaultParam.Some? :: UpperCase(defs[i].defaultParam.value.name)
  }

  /**
   * `getParamsFromMsgPayload`: walks the definitions, appending each one's
   * value when it has one.
   */
  method GetParamsFromMsgPayload(payload: JsonObject, schema: Option<seq<ParamDef>>)
    returns (parameters: seq<ParamValue>)
    requires schema.Some? ==> WellTypedSchema(schema.value)
    ensures parameters == ParamsFor(schema, payload)
  {
    parameters := [];
    if schema.Some? {
      var defs := schema.value;
      for i := 0 to |defs|
        invariant parameters == ParamsFromPayload(defs[..i], payload)
      {
        assert defs[..i + 1][..i] == defs[..i];
        var paramDef := defs[i];
        if paramDef.defaultParam.Some? {
          var defaultParam := paramDef.defaultParam.value;
          var payloadParam := ParamValueFromPayload(payload, UpperCase(defaultParam.name), TypeOf(paramDef), defaultParam);
          if payloadParam.Some? {
            parameters := parameters + [payloadParam.value];
          }
        }
      }
      assert defs[..|defs|] == defs;
    }
  }

  // ----- Properties of the mapping -----

  /**
   * The positions of the definitions that resolve, in schema order: the
   * witness that the parameter list is the schema's resolving definitions,
   * one value each and in order.
   */
  function ResolvedPositions(defs: seq<ParamDef>, payload: JsonObject): seq<nat>
    requires WellTypedSchema(defs)
  {
    if defs == [] then []
    else
      var n := |defs| - 1;
      ResolvedPositions(defs[..n], payload) + if Resolve(defs[n], payload).Some? then [n] else []
  }

  /** The k-th parameter is the value of the definition at the k-th resolved position. */
  lemma {:induction false} ParamsComeFromResolvedPositions(defs: seq<ParamDef>, payload: JsonObject)
    requires WellTypedSchema(defs)
    ensures |ResolvedPositions(defs, payload)| == |ParamsFromPayload(defs, payload)|
    ensures forall k :: 0 <= k < |ResolvedPositions(defs, payload)| ==>
      var i := ResolvedPositions(defs, payload)[k];
      i < |defs| && Resolve(defs[i], payload) == Some(ParamsFromPayload(defs, payload)[k])
  {
    if defs != [] {
      var n := |defs| - 1;
      var front := defs[..n];
      FrontWellTyped(defs);
      ParamsComeFromResolvedPositions(front, payload);
      var pos, prev := ResolvedPositions(defs, payload), ResolvedPositions(front, payload);
      var all, rest := ParamsFromPayload(defs, payload), ParamsFromPayload(front, payload);
      forall k | 0 <= k < |pos| ensures pos[k] < |defs| && Resolve(defs[pos[k]], payload) == Some(all[k]) {
        if k < |prev| {
          assert pos[k] == prev[k] && all[k] == rest[k];
          assert defs[prev[k]] == front[prev[k]];
        }
      }
    }
  }

  /** The resolved positions are strictly increasing and lie inside the schema. */
  lemma {:induction false} ResolvedPositionsIncrease(defs: seq<ParamDef>, payload: JsonObject)
    requires WellTypedSchema(defs)
    ensures forall k :: 0 <= k < |ResolvedPositions(defs, payload)| ==> ResolvedPositions(defs, payload)[k] < |defs|
    ensures forall k, l :: 0 <= k < l < |ResolvedPositions(defs, payload)| ==>
      ResolvedPositions(defs, payload)[k] < ResolvedPositions(defs, payload)[l]
  {
    if defs != [] {
      FrontWellTyped(defs);
      ResolvedPositionsIncrease(defs[..|defs| - 1], payload);
    }
  }

  /** A position is resolved exactly when the definition there contributes a value. */
  lemma {:induction false} ResolvedPositionsComplete(defs: seq<ParamDef>, payload: JsonObject)
    requires WellTypedSchema(defs)
    ensures forall i :: 0 <= i < |defs| ==> (i in ResolvedPositions(defs, payload) <==> Resolve(defs[i], payload).Some?)
  {
    if defs != [] {
      var n := |defs| - 1;
      var front := defs[..n];
      FrontWellTyped(defs);
      ResolvedPositionsComplete(front, payload);
      ResolvedPositionsIncrease(front, payload);
      var pos, prev := ResolvedPositions(defs, payload), ResolvedPositions(front, payload);
      forall i | 0 <= i < |defs| ensures i in pos <==> Resolve(defs[i], payload).Some? {
        if i < n {
          assert front[i] == defs[i];
          assert i in pos <==> i in prev;
        }
      }
    }
  }

  /** At most one parameter per definition. */
  lemma ParamsAtMostOnePerDefinition(defs: seq<ParamDef>, payload: JsonObject)
    requires WellTypedSchema(defs)
    ensures |ParamsFromPayload(defs, payload)| <= |defs|
  {
    ParamsComeFromResolvedPositions(defs, payload);
    ResolvedPositionsIncrease(defs, payload);
    IncreasingBelowIsShort(ResolvedPositions(defs, payload), |defs|);
  }

  lemma {:induction false} IncreasingBelowIsShort(s: seq<nat>, bound: nat)
    requires forall k :: 0 <= k < |s| ==> s[k] < bound
    requires forall k, l :: 0 <= k < l < |s| ==> s[k] < s[l]
    ensures |s| <= bound
  {
    if s != [] {
      var front := s[..|s| - 1];
      assert forall k :: 0 <= k < |front| ==> front[k] < s[|s| - 1];
      IncreasingBelowIsShort(front, s[|s| - 1]);
    }
  }

  lemma FrontWellTyped(defs: seq<ParamDef>)
    requires WellTypedSchema(defs) && defs != []
    ensures WellTypedSchema(defs[..|defs| - 1])
  {
    var front := defs[..|defs| - 1];
    forall i | 0 <= i < |front| ensures WellTyped(front[i]) {
      assert front[i] == defs[i];
    }
  }

  /** A definition's contribution reads the message only under that definition's key. */
  lemma ResolveReadsOnlyItsKey(d: ParamDef, p1: JsonObject, p2: JsonObject)
    requires WellTyped(d)
    requires d.defaultParam.Some? ==>
      var key := UpperCase(d.defaultParam.value.name);
      (key in p1 <==> key in p2) && (key in p1 ==> p1[key] == p2[key])
    ensures Resolve(d, p1) == Resolve(d, p2)
  {
  }

  /**
   * Two messages that agree on every key the schema looks up give the same
   * parameter list: the other members of a message have no effect.
   */
  lemma {:induction false} ParamsDependOnlyOnLookupKeys(defs: seq<ParamDef>, p1: JsonObject, p2: JsonObject)
    requires WellTypedSchema(defs)
    requires forall k :: k in LookupKeys(defs) ==> (k in p1 <==> k in p2) && (k in p1 ==> p1[k] == p2[k])
    ensures ParamsFromPayload(defs, p1) == ParamsFromPayload(defs, p2)
  {
    if defs != [] {
      var n := |defs| - 1;
      var front := defs[..n];
      assert WellTypedSchema(front) by {
        forall i | 0 <= i < |front| ensures WellTyped(front[i]) { assert front[i] == defs[i]; }
      }
      assert LookupKeys(front) <= LookupKeys(defs) by {
        forall k | k in LookupKeys(front) ensures k in LookupKeys(defs) {
          var i :| 0 <= i < |front| && front[i].defaultParam.Some? && k == UpperCase(front[i].defaultParam.value.name);
          assert defs[i] == front[i];
        }
      }
      ParamsDependOnlyOnLookupKeys(front, p1, p2);
      if defs[n].defaultParam.Some? {
        assert UpperCase(defs[n].defaultParam.value.name) in LookupKeys(defs);
      }
      ResolveReadsOnlyItsKey(defs[n], p1, p2);
    }
  }

  /** Adding or replacing a member whose key the schema does not look up changes nothing. */
  lemma UnmatchedMemberIsIgnored(defs: seq<ParamDef>, payload: JsonObject, key: string, v: Json)
    requires WellTypedSchema(defs)
    requires key !in LookupKeys(defs)
    ensures ParamsFromPayload(defs, payload[key := v]) == ParamsFromPayload(defs, payload)
  {
    ParamsDependOnlyOnLookupKeys(defs, payload[key := v], payload);
  }

  /**
   * A message key with a lower-case letter in it is never looked up, whatever
   * the definitions are called, because names are upper-cased first.
   */
  lemma LowerCaseKeyIsNeverLookedUp(defs: seq<ParamDef>, key: string, i: nat)
    requires i < |key| && IsLowerAscii(key[i])
    ensures key !in LookupKeys(defs)
  {
  }

  /**
   * A job with no parameters property gets an empty list whatever the message
   * says; so does a job whose definitions all lack a default value.
   */
  lemma {:induction false} NoDefaultsNoParams(defs: seq<ParamDef>, payload: JsonObject)
    requires WellTypedSchema(defs)
    requires forall i :: 0 <= i < |defs| ==> defs[i].defaultParam.None? || defs[i].defaultParam.value.value.None?
    ensures ParamsFromPayload(defs, payload) == []
  {
    if defs != [] {
      var n := |defs| - 1;
      var front := defs[..n];
      assert WellTypedSchema(front) by {
        forall i | 0 <= i < |front| ensures WellTyped(front[i]) { assert front[i] == defs[i]; }
      }
      assert forall i :: 0 <= i < |front| ==> front[i] == defs[i];
      NoDefaultsNoParams(front, payload);
    }
  }

  /**
   * A boolean parameter whose upper-cased name is sent as a string reading
   * "true" in any case is set to true, whatever its default.
   */
  lemma BooleanParamFromString(name: string, s: string, default: bool)
    requires name != [] && UpperCase(s) == "TRUE"
    ensures Resolve(ParamDef(BooleanKind, Some(DefaultParam(name, Some(BoolScalar(default))))),
                    map[UpperCase(name) := JString(s)])
         == Some(BooleanParam(UpperCase(name), true))
  {
    TrueInAnyCase(s);
  }

  /**
   * A worked case: the string definition BRANCH (default "main") yields its
   * default when the message only carries DEBUG.
   */
  lemma ExampleMissingKeyGivesDefault()
    ensures Resolve(ParamDef(StringKind, Some(DefaultParam("BRANCH", Some(TextScalar("main"))))),
                    map["DEBUG" := JString("notabool")])
         == Some(StringParam("BRANCH", "main"))
  {
    UpperCaseKeepsUpper("BRANCH");
    assert "BRANCH" != "DEBUG";
  }

  // ----- The trigger object -----

  class BuildTrigger {
    /** The job this trigger is attached to; null until Jenkins starts the trigger. */
    var job: Option<Job>

    constructor ()
      ensures job == None
    {
      job := None;
    }

    /** `getProjectName`: the job's full name, or the empty string when no job is attached. */
    function ProjectName(): (r: string)
      reads this
      ensures job.None? ==> r == []
      ensures job.Some? ==> r == job.value.fullName
    {
      match job
      case None => []
      case Some(j) => j.fullName
    }

    /**
     * `scheduleBuild`: the scheduler call the message leads to. No call when
     * the trigger has no job or the message source is null. A message that
     * parsed as a JSON object gives a call carrying the mapped parameters; any
     * other message gives a call without a parameters action.
     */
    method ScheduleBuild(messageSource: Option<string>, message: Option<JsonObject>)
      returns (request: Option<BuildRequest>)
      requires job.Some? && job.value.schema.Some? ==> WellTypedSchema(job.value.schema.value)
      ensures request.None? <==> job.None? || messageSource.None?
      ensures request.Some? ==> request.value.job == job.value && request.value.cause == messageSource.value
      ensures request.Some? ==> (request.value.parameters.Some? <==> message.Some?)
      ensures request.Some? && message.Some? ==>
        request.value.parameters.value == ParamsFor(job.value.schema, message.value)
    {
      request := None;
      if job.Some? && messageSource.Some? {
        if message.Some? {
          var parameters := GetParamsFromMsgPayload(message.value, job.value.schema);
          request := Some(BuildRequest(job.value, messageSource.value, Some(parameters)));
        } else {
          request := Some(BuildRequest(job.value, messageSource.value, None));
        }
      }
    }
  }
}
