/**
 * KubectlHelper of the console program: the older copy of the kubectl
 * wrappers. It shares the flag, parsing and resolution rules of module
 * Kubectl; the lemmas at the end state where it differs from KubectlService.
 */
module KubectlHelper {
  import opened Wrappers
  import opened Text
  import opened Models
  import opened Kubectl
  import KubectlService

  /** The arguments GetCurrentContext runs kubectl with. */
  const CurrentContextCommand: string := "config current-context"

  /**
   * GetCurrentContext: kubectl's output with its trailing white space
   * removed; nothing else of it is dropped, and trimming again changes nothing.
   */
  function GetCurrentContext(output: string): (r: string)
    ensures StartsWith(output, r)
    ensures forall i :: |r| <= i < |output| ==> IsWhiteSpace(output[i])
    ensures r == [] || !IsWhiteSpace(r[|r| - 1])
    ensures TrimEnd(r) == r
  {
    TrimEnd(output)
  }

  /**
   * GetPods: "get pods " with "--context=<c> " for a non-empty cluster and
   * "--namespace=<n>", with no space after it, for a namespace that is not
   * blank; then the pod names read from kubectl's output.
   */
  method GetPods(cluster: string, namespaceName: string, output: string, newLine: string)
    returns (command: string, pods: seq<string>)
    ensures command == Arguments("get pods ", cluster, namespaceName, "")
    ensures pods == ParsePods(output, newLine)
  {
    ArgumentsLayout("get pods ", cluster, namespaceName, "");
    command := "get pods ";
    if !IsNullOrEmpty(cluster) {
      command := command + ("--context=" + cluster + " ");
    }
    if !IsNullOrWhiteSpace(namespaceName) {
      command := command + ("--namespace=" + namespaceName);
    }
    pods := ParsePods(output, newLine);
  }

  /** FindClosestName: the last listed pod that matches the configured name, or null. */
  method FindClosestName(podMapping: ConsolePodMapping, output: string, newLine: string)
    returns (podName: Option<string>, listCommand: string)
    ensures listCommand == Arguments("get pods ", podMapping.Cluster, podMapping.Namespace, "")
    ensures podName == ClosestName(ParsePods(output, newLine), podMapping.Name)
  {
    var pods;
    listCommand, pods := GetPods(podMapping.Cluster, podMapping.Namespace, output, newLine);
    podName := ClosestName(pods, podMapping.Name);
  }

  /**
   * The arguments of the process PortForward returns for a pod list, or None
   * for the null it returns when the resolved name is null or blank.
   */
  function PortForwardArguments(podMapping: ConsolePodMapping, pods: seq<string>): (r: Option<string>)
    ensures r.None? <==> ClosestName(pods, podMapping.Name).None? || IsNullOrWhiteSpace(ClosestName(pods, podMapping.Name).value)
    ensures !IsNullOrWhiteSpace(podMapping.Name) ==>
      (r.None? <==> forall j :: 0 <= j < |pods| ==> !Matches(pods[j], podMapping.Name))
    ensures r.Some? ==> exists k :: (
      && 0 <= k < |pods|
      && Matches(pods[k], podMapping.Name)
      && (forall j :: k < j < |pods| ==> !Matches(pods[j], podMapping.Name))
      && r.value == Arguments("port-forward ", podMapping.Cluster, podMapping.Namespace, " ")
                    + PodTarget(pods[k], podMapping.LocalPort, podMapping.RemotePort))
  {
    var podName := ClosestName(pods, podMapping.Name);
    if podName.None? then None
    else if IsNullOrWhiteSpace(podName.value) then
      BlankMatchNeedsBlankName(pods, podMapping.Name);
      None
    else
      Some(Arguments("port-forward ", podMapping.Cluster, podMapping.Namespace, " ")
           + PodTarget(podName.value, podMapping.LocalPort, podMapping.RemotePort))
  }

  /**
   * PortForward: the arguments of the kubectl process to start, or None (null,
   * no process) when the resolved name is null or blank.
   */
  method PortForward(podMapping: ConsolePodMapping, output: string, newLine: string)
    returns (r: Option<string>, listCommand: string)
    ensures listCommand == Arguments("get pods ", podMapping.Cluster, podMapping.Namespace, "")
    ensures r == PortForwardArguments(podMapping, ParsePods(output, newLine))
  {
    var command := "port-forward ";
    if !IsNullOrEmpty(podMapping.Cluster) {
      command := command + ("--context=" + podMapping.Cluster + " ");
    }
    if !IsNullOrWhiteSpace(podMapping.Namespace) {
      command := command + ("--namespace=" + podMapping.Namespace + " ");
    }
    assert command == Arguments("port-forward ", podMapping.Cluster, podMapping.Namespace, " ") by {
      ArgumentsLayout("port-forward ", podMapping.Cluster, podMapping.Namespace, " ");
    }
    var podName;
    podName, listCommand := FindClosestName(podMapping, output, newLine);
    ghost var pods := ParsePods(output, newLine);
    assert podName == ClosestName(pods, podMapping.Name);
    if podName.None? || IsNullOrWhiteSpace(podName.value) {
      r := None;
      assert r == PortForwardArguments(podMapping, pods);
      return;
    }
    command := command + (podName.value + " " + IntToString(podMapping.LocalPort as int)
                          + ":" + IntToString(podMapping.RemotePort as int));
    r := Some(command);
    assert r == PortForwardArguments(podMapping, pods);
  }

  // ---------------------------------------------------------------------
  // Where the console copy differs from KubectlService
  // ---------------------------------------------------------------------

  /**
   * The console's `get pods` arguments lack the space after the namespace flag
   * that KubectlService.CreateParameter writes; they are otherwise the same.
   */
  lemma GetPodsNamespaceSpace(cluster: string, namespaceName: string)
    ensures Arguments("get pods ", cluster, namespaceName, "") + (if IsNullOrWhiteSpace(namespaceName) then "" else " ")
         == Arguments("get pods ", cluster, namespaceName, " ")
    ensures Arguments("get pods ", cluster, namespaceName, "") == Arguments("get pods ", cluster, namespaceName, " ")
        <==> IsNullOrWhiteSpace(namespaceName)
  {
    ArgumentsLayout("get pods ", cluster, namespaceName, "");
    ArgumentsLayout("get pods ", cluster, namespaceName, " ");
    if !IsNullOrWhiteSpace(namespaceName) {
      assert |Arguments("get pods ", cluster, namespaceName, "")| + 1
          == |Arguments("get pods ", cluster, namespaceName, " ")|;
    }
  }

  /** The Core record with the same fields. */
  function CoreMapping(podMapping: ConsolePodMapping): (m: PodMapping)
    ensures m.ClusterName == podMapping.Cluster && m.Name == podMapping.Name && m.Namespace == podMapping.Namespace
    ensures m.LocalPort == podMapping.LocalPort && m.RemotePort == podMapping.RemotePort
  {
    PodMapping(podMapping.LocalPort, podMapping.RemotePort, podMapping.Name, podMapping.Namespace, podMapping.Cluster)
  }

  /**
   * On the same pod list both copies build the same port-forward arguments;
   * where the console copy returns null, KubectlService throws.
   */
  lemma PortForwardCopiesAgree(podMapping: ConsolePodMapping, pods: seq<string>)
    ensures PortForwardArguments(podMapping, pods).None? <==> KubectlService.PortForwardResult(CoreMapping(podMapping), pods).Err?
    ensures PortForwardArguments(podMapping, pods).Some? ==>
      KubectlService.PortForwardResult(CoreMapping(podMapping), pods) == Ok(PortForwardArguments(podMapping, pods).value)
  {
  }
}
