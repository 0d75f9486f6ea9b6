/**
 * The decisions PortForwardService makes: which mappings follow the current
 * context, which cluster an iteration of a mapping's loop uses and how it is
 * reported, when that loop stops, and when the context monitor cancels the
 * dynamic mappings. Tasks, delays and processes are not modelled: each loop
 * runs over the sequence of things it observes.
 */
module PortForwardService {
  import opened Wrappers
  import opened Text
  import opened Models
  import opened Kubectl
  import opened KubectlService

  // ---------------------------------------------------------------------
  // Static and dynamic mappings
  // ---------------------------------------------------------------------

  /** A mapping naming its cluster is static; one with a blank ClusterName is dynamic. */
  predicate IsStatic(podMapping: PodMapping): (r: bool)
    ensures r <==> exists i :: 0 <= i < |podMapping.ClusterName| && !IsWhiteSpace(podMapping.ClusterName[i])
  {
    !IsNullOrWhiteSpace(podMapping.ClusterName)
  }

  /** The mappings ForwardStaticCluster starts: Where(ClusterName is not blank). */
  function StaticMappings(mappings: seq<PodMapping>): (r: seq<PodMapping>)
    ensures |r| <= |mappings|
    ensures forall i :: 0 <= i < |r| ==> IsStatic(r[i])
  {
    if mappings == [] then []
    else (if IsStatic(mappings[0]) then [mappings[0]] else []) + StaticMappings(mappings[1..])
  }

  /** The mappings ForwardDynamicClusterAsync starts: Where(ClusterName is blank). */
  function DynamicMappings(mappings: seq<PodMapping>): (r: seq<PodMapping>)
    ensures |r| <= |mappings|
    ensures forall i :: 0 <= i < |r| ==> !IsStatic(r[i])
  {
    if mappings == [] then []
    else (if !IsStatic(mappings[0]) then [mappings[0]] else []) + DynamicMappings(mappings[1..])
  }

  /** Every mapping lands in exactly one of the two groups, as often as it is configured. */
  lemma {:induction false} PartitionIsExact(mappings: seq<PodMapping>)
    ensures multiset(StaticMappings(mappings)) + multiset(DynamicMappings(mappings)) == multiset(mappings)
    ensures |StaticMappings(mappings)| + |DynamicMappings(mappings)| == |mappings|
  {
    if mappings != [] {
      PartitionIsExact(mappings[1..]);
      assert mappings == [mappings[0]] + mappings[1..];
    }
  }

  /** A mapping is in the static group iff it is configured and static, and in the dynamic group iff dynamic. */
  lemma {:induction false} PartitionMembership(mappings: seq<PodMapping>, m: PodMapping)
    ensures m in StaticMappings(mappings) <==> m in mappings && IsStatic(m)
    ensures m in DynamicMappings(mappings) <==> m in mappings && !IsStatic(m)
  {
    if mappings != [] {
      PartitionMembership(mappings[1..], m);
      assert mappings == [mappings[0]] + mappings[1..];
    }
  }

  /**
   * Both groups keep the configuration order: filtering a concatenation
   * concatenates the filtered parts.
   */
  lemma {:induction false} StaticMappingsKeepOrder(a: seq<PodMapping>, b: seq<PodMapping>)
    ensures StaticMappings(a + b) == StaticMappings(a) + StaticMappings(b)
  {
    if a == [] {
      assert a + b == b;
    } else {
      var head := if IsStatic(a[0]) then [a[0]] else [];
      assert (a + b)[0] == a[0];
      assert (a + b)[1..] == a[1..] + b;
      assert StaticMappings(a + b) == head + StaticMappings(a[1..] + b);
      assert StaticMappings(a) == head + StaticMappings(a[1..]);
      StaticMappingsKeepOrder(a[1..], b);
      assert head + (StaticMappings(a[1..]) + StaticMappings(b)) == (head + StaticMappings(a[1..])) + StaticMappings(b);
    }
  }

  /** The same for the dynamic group. */
  lemma {:induction false} DynamicMappingsKeepOrder(a: seq<PodMapping>, b: seq<PodMapping>)
    ensures DynamicMappings(a + b) == DynamicMappings(a) + DynamicMappings(b)
  {
    if a == [] {
      assert a + b == b;
    } else {
      var head := if !IsStatic(a[0]) then [a[0]] else [];
      assert (a + b)[0] == a[0];
      assert (a + b)[1..] == a[1..] + b;
      assert DynamicMappings(a + b) == head + DynamicMappings(a[1..] + b);
      assert DynamicMappings(a) == head + DynamicMappings(a[1..]);
      DynamicMappingsKeepOrder(a[1..], b);
      assert head + (DynamicMappings(a[1..]) + DynamicMappings(b)) == (head + DynamicMappings(a[1..])) + DynamicMappings(b);
    }
  }

  // ---------------------------------------------------------------------
  // One iteration of MapPodAsync
  // ---------------------------------------------------------------------

  /** The cluster an iteration uses: the mapping's own, or the context read in that iteration. */
  function ClusterFor(podMapping: PodMapping, currentContext: string): (cluster: string)
    ensures cluster == podMapping.ClusterName || cluster == currentContext
    ensures IsNullOrWhiteSpace(cluster) ==> cluster == currentContext
  {
    if IsNullOrWhiteSpace(podMapping.ClusterName) then currentContext else podMapping.ClusterName
  }

  /** A static mapping's cluster does not depend on the current context. */
  lemma StaticIgnoresContext(mappings: seq<PodMapping>, podMapping: PodMapping, context1: string, context2: string)
    requires podMapping in StaticMappings(mappings)
    ensures ClusterFor(podMapping, context1) == ClusterFor(podMapping, context2) == podMapping.ClusterName
  {
    PartitionMembership(mappings, podMapping);
  }

  /** A dynamic mapping's cluster is the context read in the iteration. */
  lemma DynamicFollowsContext(mappings: seq<PodMapping>, podMapping: PodMapping, currentContext: string)
    requires podMapping in DynamicMappings(mappings)
    ensures ClusterFor(podMapping, currentContext) == currentContext
  {
    PartitionMembership(mappings, podMapping);
  }

  /**
   * A whitespace-only ClusterName makes a mapping dynamic, yet KubectlService
   * still passes it to kubectl as --context.
   */
  lemma BlankClusterNameIsDynamicButPassed(podMapping: PodMapping)
    requires podMapping.ClusterName != [] && IsNullOrWhiteSpace(podMapping.ClusterName)
    ensures !IsStatic(podMapping)
    ensures Context(podMapping.ClusterName) in Flags(podMapping.ClusterName, podMapping.Namespace)
  {
  }

  /** The source label "localhost:<LocalPort>". */
  function SourceLabel(podMapping: PodMapping): (r: string)
    ensures StartsWith(r, "localhost:") && r[10..] == IntToString(podMapping.LocalPort as int)
  {
    "localhost:" + IntToString(podMapping.LocalPort as int)
  }

  /** The target label "<cluster>.<Namespace>.<Name>:<RemotePort>". */
  function TargetLabel(podMapping: PodMapping, clusterName: string): (r: string)
    ensures StartsWith(r, clusterName + ".")
    ensures EndsWith(r, ":" + IntToString(podMapping.RemotePort as int))
  {
    var head, port := clusterName + "." + podMapping.Namespace + "." + podMapping.Name, IntToString(podMapping.RemotePort as int);
    assert head + ":" + port == (clusterName + ".") + (podMapping.Namespace + "." + podMapping.Name + ":" + port);
    head + ":" + port
  }

  /** Both labels end in their port: after the last ':' stands the port, which reads back. */
  lemma LabelsReadBack(podMapping: PodMapping, clusterName: string)
    ensures SplitAtLast(SourceLabel(podMapping), ':') == Some(("localhost", IntToString(podMapping.LocalPort as int)))
    ensures SplitAtLast(TargetLabel(podMapping, clusterName), ':')
         == Some((clusterName + "." + podMapping.Namespace + "." + podMapping.Name, IntToString(podMapping.RemotePort as int)))
    ensures ParseInt(IntToString(podMapping.LocalPort as int)) == Some(podMapping.LocalPort as int)
    ensures ParseInt(IntToString(podMapping.RemotePort as int)) == Some(podMapping.RemotePort as int)
  {
    var local, remote := IntToString(podMapping.LocalPort as int), IntToString(podMapping.RemotePort as int);
    IntToStringHasNoSeparators(podMapping.LocalPort as int);
    IntToStringHasNoSeparators(podMapping.RemotePort as int);
    assert SourceLabel(podMapping) == "localhost" + [':'] + local;
    SplitAtLastAfter("localhost", ':', local);
    var head := clusterName + "." + podMapping.Namespace + "." + podMapping.Name;
    assert TargetLabel(podMapping, clusterName) == head + [':'] + remote;
    SplitAtLastAfter(head, ':', remote);
    IntToStringRoundTrip(podMapping.LocalPort as int);
    IntToStringRoundTrip(podMapping.RemotePort as int);
  }

  /**
   * What an iteration of the loop sees: whether its token is cancelled at the
   * top of the loop, the context GetCurrentContextAsync returns, and the pod
   * list the service serves.
   */
  datatype Observation = Observation(cancelled: bool, currentContext: string, pods: seq<string>)

  /** What an iteration does: the cluster it picks, the two labels it logs, and the port-forward outcome. */
  datatype Iteration = Iteration(cluster: string, source: string, target: string, outcome: Result<string, Error>)

  /**
   * The iteration specified: portForward stands for the service's
   * PortForwardAsync applied to the served pod list (IKubectlService is
   * injected; KubectlService.PortForwardResult is the Core implementation).
   */
  function RunIteration(podMapping: PodMapping, observation: Observation,
                        portForward: (PodMapping, seq<string>) -> Result<string, Error>): (iteration: Iteration)
    ensures iteration.outcome == portForward(podMapping, observation.pods)
    ensures StartsWith(iteration.target, iteration.cluster + ".")
  {
    var cluster := ClusterFor(podMapping, observation.currentContext);
    Iteration(cluster, SourceLabel(podMapping), TargetLabel(podMapping, cluster),
              portForward(podMapping, observation.pods))
  }

  /**
   * MapPodAsync's loop: an iteration starts only while the token is not
   * cancelled; the exception PortForwardAsync throws ends the loop.
   */
  method MapPod(podMapping: PodMapping, observations: seq<Observation>,
                portForward: (PodMapping, seq<string>) -> Result<string, Error>)
    returns (runs: seq<Iteration>)
    ensures |runs| <= |observations|
    ensures forall i :: 0 <= i < |runs| ==>
      !observations[i].cancelled && runs[i] == RunIteration(podMapping, observations[i], portForward)
    ensures forall i :: 0 <= i < |runs| - 1 ==> runs[i].outcome.Ok?
    ensures |runs| < |observations| ==>
      observations[|runs|].cancelled || (|runs| > 0 && runs[|runs| - 1].outcome.Err?)
  {
    runs := [];
    var i := 0;
    while i < |observations| && !observations[i].cancelled
      invariant 0 <= i <= |observations|
      invariant |runs| == i
      invariant forall k :: 0 <= k < i ==>
        !observations[k].cancelled && runs[k] == RunIteration(podMapping, observations[k], portForward) && runs[k].outcome.Ok?
    {
      var observation := observations[i];
      var clusterName := if IsNullOrWhiteSpace(podMapping.ClusterName) then observation.currentContext
                         else podMapping.ClusterName;
      var source := "localhost:" + IntToString(podMapping.LocalPort as int);
      var target := clusterName + "." + podMapping.Namespace + "." + podMapping.Name + ":"
                    + IntToString(podMapping.RemotePort as int);
      var outcome := portForward(podMapping, observation.pods);
      runs := runs + [Iteration(clusterName, source, target, outcome)];
      if outcome.Err? {
        return;
      }
      i := i + 1;
    }
  }

  /**
   * With the Core service, an iteration fails exactly when no served pod
   * matches a non-blank configured name, and then with the not-found message.
   */
  lemma IterationWithKubectlService(podMapping: PodMapping, observation: Observation)
    requires !IsNullOrWhiteSpace(podMapping.Name)
    ensures var outcome := RunIteration(podMapping, observation, PortForwardResult).outcome;
      && (outcome.Err? <==> forall j :: 0 <= j < |observation.pods| ==> !Matches(observation.pods[j], podMapping.Name))
      && (outcome.Err? ==> outcome.error == PodNotFound(NotFoundMessage(podMapping.Name)))
  {
  }

  // ---------------------------------------------------------------------
  // The context monitor
  // ---------------------------------------------------------------------

  /** One turn of the monitor's loop: whether shutdown is requested, and the context it reads. */
  datatype Poll = Poll(shutdownRequested: bool, currentContext: string)

  /**
   * StartMonitorContextChangeAsync's polling loop: it reads the context while
   * shutdown is not requested, and cancels the dynamic mappings' token at the
   * first reading that differs from the context recorded at its start, after
   * which it stops. readings is how many contexts it read.
   */
  method MonitorContextChange(recorded: string, polls: seq<Poll>) returns (cancelledAt: Option<nat>, readings: nat)
    ensures readings <= |polls|
    ensures forall j :: 0 <= j < readings ==> !polls[j].shutdownRequested
    ensures cancelledAt.Some? ==>
      readings > 0 && cancelledAt.value == readings - 1 && polls[readings - 1].currentContext != recorded
    ensures forall j :: 0 <= j < readings && (cancelledAt.None? || j < readings - 1) ==> polls[j].currentContext == recorded
    ensures cancelledAt.None? ==> readings == |polls| || polls[readings].shutdownRequested
  {
    cancelledAt, readings := None, 0;
    while readings < |polls| && !polls[readings].shutdownRequested
      invariant readings <= |polls|
      invariant forall j :: 0 <= j < readings ==> !polls[j].shutdownRequested && polls[j].currentContext == recorded
    {
      var newContext := polls[readings].currentContext;
      readings := readings + 1;
      if recorded != newContext {
        cancelledAt := Some(readings - 1);
        return;
      }
    }
  }
}
