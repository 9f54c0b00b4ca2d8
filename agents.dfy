/** The three registered agents (orchestrator/multi_agent_orchestrator.py,
    `InfrastructureAgent`, `DeploymentAgent`, `MonitoringAgent`): which
    requests each one claims, what `execute_task` returns and what it writes
    into the knowledge base. The agents only simulate their work, so both are
    determined by the task's description and parameters and by the current
    second `now`, the value of `int(time.time())`. */
module Agents {
  import opened Values
  import opened Text
  import opened Plans
  import opened Knowledge

  datatype Agent = InfrastructureAgent | DeploymentAgent | MonitoringAgent {
    /** The agent type it is registered under. */
    function Type(): AgentType {
      match this
      case InfrastructureAgent => Infrastructure
      case DeploymentAgent => Deployment
      case MonitoringAgent => Monitoring
    }

    /** The fixed keyword list of `can_handle`. */
    function Keywords(): seq<string> {
      match this
      case InfrastructureAgent =>
        ["ec2", "s3", "vpc", "subnet", "security group", "load balancer",
         "create instance", "launch instance", "provision", "infrastructure"]
      case DeploymentAgent =>
        ["deploy", "release", "version", "build", "pipeline", "ci/cd",
         "continuous integration", "continuous deployment", "git", "docker"]
      case MonitoringAgent =>
        ["monitor", "alert", "metric", "log", "dashboard", "cloudwatch",
         "performance", "health", "status", "notification"]
    }

    /** `can_handle`: `any(keyword in description.lower() for keyword in
        keywords)`. */
    predicate CanHandle(description: string) {
      AnyIn(Keywords(), Lower(description))
    }
  }

  /** Some keyword of the list is a substring of `s`, tried in order. */
  predicate AnyIn(keywords: seq<string>, s: string) {
    keywords != [] && (Contains(s, keywords[0]) || AnyIn(keywords[1..], s))
  }

  /** `AnyIn` holds exactly when some keyword of the list occurs in `s`. */
  lemma {:induction false} AnyInIff(keywords: seq<string>, s: string)
    ensures AnyIn(keywords, s) <==> exists k :: k in keywords && Contains(s, k)
  {
    if keywords != [] {
      AnyInIff(keywords[1..], s);
      if AnyIn(keywords[1..], s) {
        var k :| k in keywords[1..] && Contains(s, k);
        assert k in keywords;
      }
      if exists k :: k in keywords && Contains(s, k) {
        var k :| k in keywords && Contains(s, k);
        if k != keywords[0] {
          assert k in keywords[1..];
        }
      }
    }
  }

  /** The agents in the order the orchestrator registers them. */
  const Registry: seq<Agent> := [InfrastructureAgent, DeploymentAgent, MonitoringAgent]

  /** `self.agents.get(agent_type)`: only three of the five types have an
      agent. */
  function AgentFor(t: AgentType): (a: Option<Agent>)
    ensures a.Some? <==> t == Infrastructure || t == Deployment || t == Monitoring
    ensures a.Some? ==> a.value.Type() == t && a.value in Registry
  {
    match t
    case Infrastructure => Some(InfrastructureAgent)
    case Deployment => Some(DeploymentAgent)
    case Monitoring => Some(MonitoringAgent)
    case _ => None
  }

  /** Matching ignores case: a description and its lower-case form are
      claimed by the same agents. */
  lemma CanHandleIgnoresCase(a: Agent, description: string)
    ensures a.CanHandle(description) <==> a.CanHandle(Lower(description))
  {
    LowerIdempotent(description);
  }

  /** An agent claims a description exactly when one of its keywords is a
      substring of the lower-cased description. */
  lemma CanHandleIff(a: Agent, description: string)
    ensures a.CanHandle(description) <==> exists k :: k in a.Keywords() && Contains(Lower(description), k)
  {
    AnyInIff(a.Keywords(), Lower(description));
  }

  /** Matching is by substring: a keyword anywhere inside a longer word
      claims the request. */
  lemma CanHandleByOccurrence(a: Agent, description: string, k: string, i: nat)
    requires k in a.Keywords() && OccursAt(Lower(description), k, i)
    ensures a.CanHandle(description)
  {
    ContainsAt(Lower(description), k, i);
    CanHandleIff(a, description);
  }

  /** `task.parameters.get(key, default)`. */
  function Param(parameters: map<string, string>, key: string, default: string): string {
    if key in parameters then parameters[key] else default
  }

  /** What `execute_task` writes into the knowledge base. */
  datatype Effect =
    | NoEffect
    | ResourceEffect(rtype: string, id: string, metadata: Record)
    | DeploymentEffect(info: Record)

  /** The knowledge base after an effect, stamped with `now`. */
  function Apply(s: KbState, e: Effect, now: int): KbState {
    match e
    case NoEffect => s
    case ResourceEffect(t, id, md) =>
      var r := Resource(t, id, md, now);
      s.(resources := s.resources[id := r], resourcesByType := FileUnder(s.resourcesByType, t, id, r))
    case DeploymentEffect(info) =>
      s.(deployments := s.deployments + [Stamped(info, now)])
  }

  /** Which branch the infrastructure agent takes: EC2 is tested before S3. */
  datatype InfraKind = Ec2 | S3 | OtherInfra

  function InfraKindOf(description: string): (k: InfraKind)
    ensures k == Ec2 <==> Contains(Lower(description), "ec2")
    ensures k == S3 <==> !Contains(Lower(description), "ec2") && Contains(Lower(description), "s3")
  {
    var d := Lower(description);
    if Contains(d, "ec2") then Ec2 else if Contains(d, "s3") then S3 else OtherInfra
  }

  function InstanceId(now: nat): string {
    "i-" + Decimal(now)
  }

  function BucketName(parameters: map<string, string>, now: nat): string {
    Param(parameters, "bucket_name", "bucket-" + Decimal(now))
  }

  function Ec2Metadata(parameters: map<string, string>): Record {
    map["instance_type" := JStr(Param(parameters, "instance_type", "t2.micro")),
        "region" := JStr(Param(parameters, "region", "us-east-1")),
        "status" := JStr("running")]
  }

  function S3Metadata(parameters: map<string, string>): Record {
    map["region" := JStr(Param(parameters, "region", "us-east-1")),
        "acl" := JStr(Param(parameters, "acl", "private"))]
  }

  function DeploymentId(now: nat): string {
    "dep-" + Decimal(now)
  }

  function DeploymentInfo(parameters: map<string, string>, now: nat): Record {
    map["id" := JStr(DeploymentId(now)),
        "application" := JStr(Param(parameters, "application", "unknown")),
        "version" := JStr(Param(parameters, "version", "1.0.0")),
        "environment" := JStr(Param(parameters, "environment", "dev")),
        "status" := JStr("success")]
  }

  /** The knowledge-base write of `execute_task`. */
  function EffectOf(a: Agent, description: string, parameters: map<string, string>, now: nat): Effect {
    match a
    case InfrastructureAgent =>
      (match InfraKindOf(description)
       case Ec2 => ResourceEffect("ec2_instance", InstanceId(now), Ec2Metadata(parameters))
       case S3 => ResourceEffect("s3_bucket", BucketName(parameters, now), S3Metadata(parameters))
       case OtherInfra => NoEffect)
    case DeploymentAgent => DeploymentEffect(DeploymentInfo(parameters, now))
    case MonitoringAgent => NoEffect
  }

  /** The dict `execute_task` returns. */
  function Response(a: Agent, description: string, parameters: map<string, string>, now: nat): Record {
    match a
    case InfrastructureAgent =>
      (match InfraKindOf(description)
       case Ec2 =>
         map["instance_id" := JStr(InstanceId(now)), "status" := JStr("running"),
             "public_ip" := JStr("192.168.1.1")]
       case S3 =>
         var bucket := BucketName(parameters, now);
         map["bucket_name" := JStr(bucket), "bucket_url" := JStr("https://" + bucket + ".s3.amazonaws.com")]
       case OtherInfra =>
         map["message" := JStr("Simulated infrastructure task: " + description),
             "status" := JStr("completed")])
    case DeploymentAgent =>
      map["deployment_id" := JStr(DeploymentId(now)), "status" := JStr("success"),
          "url" := JStr("https://" + Param(parameters, "environment", "dev") + ".example.com")]
    case MonitoringAgent =>
      map["message" := JStr("Set up monitoring for: " + description),
          "dashboard_url" := JStr("https://monitoring.example.com/dashboard/123"),
          "alerts_configured" := JArr([JStr("CPU > 80%"), JStr("Memory > 90%")])]
  }

  /** Only the infrastructure agent creates resources, and only for an EC2
      or S3 request; only the deployment agent records deployments, and it
      records one for every task; the monitoring agent writes nothing. */
  lemma WhoWritesWhat(a: Agent, description: string, parameters: map<string, string>, now: nat)
    ensures EffectOf(a, description, parameters, now).ResourceEffect? <==>
              a == InfrastructureAgent &&
              (Contains(Lower(description), "ec2") || Contains(Lower(description), "s3"))
    ensures EffectOf(a, description, parameters, now).DeploymentEffect? <==> a == DeploymentAgent
  {
  }

  /** The id a response reports is the id written into the knowledge base:
      the instance id or bucket name of the registered resource, the id of
      the recorded deployment. The S3 URL is built from that bucket name and
      the deployment URL from the recorded environment. */
  lemma ReportedIdIsRecorded(a: Agent, description: string, parameters: map<string, string>, now: nat)
    ensures var e := EffectOf(a, description, parameters, now);
            var r := Response(a, description, parameters, now);
            && (e.ResourceEffect? && e.rtype == "ec2_instance" ==>
                  r["instance_id"] == JStr(e.id) && e.metadata["status"] == r["status"])
            && (e.ResourceEffect? && e.rtype == "s3_bucket" ==>
                  r["bucket_name"] == JStr(e.id) && r["bucket_url"] == JStr("https://" + e.id + ".s3.amazonaws.com"))
            && (e.DeploymentEffect? ==>
                  r["deployment_id"] == e.info["id"] && e.info["environment"].JStr? &&
                  r["url"] == JStr("https://" + e.info["environment"].s + ".example.com"))
  {
  }

  /** No response carries an `"error"` key, so a completed task's result
      never looks like the `{"error": ...}` of a failed one. */
  lemma ResponseHasNoError(a: Agent, description: string, parameters: map<string, string>, now: nat)
    ensures "error" !in Response(a, description, parameters, now)
  {
  }

  /** The knowledge base only grows: resources may be added or replaced but
      never removed, deployments are only appended, the plan history and
      the agent memories are untouched. */
  predicate Grows(before: KbState, after: KbState) {
    && before.resources.Keys <= after.resources.Keys
    && before.deployments <= after.deployments
    && after.executionHistory == before.executionHistory
    && after.agentMemories == before.agentMemories
  }

  lemma ApplyGrows(s: KbState, e: Effect, now: int)
    ensures Grows(s, Apply(s, e, now))
    ensures e.DeploymentEffect? ==> |Apply(s, e, now).deployments| == |s.deployments| + 1
    ensures e.ResourceEffect? ==> e.id in Apply(s, e, now).resources
  {
  }

  /** `execute_task`: returns the response and performs the effect on the
      knowledge base, which stays consistent. */
  method Execute(a: Agent, kb: KnowledgeBase, description: string, parameters: map<string, string>, now: nat)
    returns (result: Record)
    requires kb.Valid()
    modifies kb
    ensures kb.Valid()
    ensures result == Response(a, description, parameters, now)
    ensures kb.State() == Apply(old(kb.State()), EffectOf(a, description, parameters, now), now)
  {
    match a
    case InfrastructureAgent =>
      var lowered := Lower(description);
      if Contains(lowered, "ec2") {
        var instanceId := InstanceId(now);
        kb.RegisterResource("ec2_instance", instanceId, Ec2Metadata(parameters), now);
        result := map["instance_id" := JStr(instanceId), "status" := JStr("running"),
                      "public_ip" := JStr("192.168.1.1")];
      } else if Contains(lowered, "s3") {
        var bucketName := BucketName(parameters, now);
        kb.RegisterResource("s3_bucket", bucketName, S3Metadata(parameters), now);
        result := map["bucket_name" := JStr(bucketName),
                      "bucket_url" := JStr("https://" + bucketName + ".s3.amazonaws.com")];
      } else {
        result := map["message" := JStr("Simulated infrastructure task: " + description),
                      "status" := JStr("completed")];
      }
    case DeploymentAgent =>
      var info := DeploymentInfo(parameters, now);
      var _ := kb.RegisterDeployment(info, now);
      result := map["deployment_id" := JStr(DeploymentId(now)), "status" := JStr("success"),
                    "url" := JStr("https://" + Param(parameters, "environment", "dev") + ".example.com")];
    case MonitoringAgent =>
      result := map["message" := JStr("Set up monitoring for: " + description),
                    "dashboard_url" := JStr("https://monitoring.example.com/dashboard/123"),
                    "alerts_configured" := JArr([JStr("CPU > 80%"), JStr("Memory > 90%")])];
  }
}
