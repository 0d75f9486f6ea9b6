# KubeClient kubectl wrappers and port-forward supervisor, in Dafny

KubeClient keeps `kubectl port-forward` sessions alive for a configured list
of pod mappings, each with a local port, a remote port, a pod name (or name
prefix), a namespace and an optional cluster. This project models the logic
around the `kubectl` calls and proves properties of it:

- **The argument strings** (`Kubectl`, `KubectlService.CreateParameter`, `KubectlHelper.GetPods`/`PortForward`):
  - `--context=<c> ` is appended only for a non-empty cluster; a blank cluster still gets it.
  - `--namespace=<n>` is appended only for a namespace that is not blank.
  - The context flag comes first.
  - Port-forward then appends `<pod> <local>:<remote>`.
  - The two copies differ only in the space after the namespace flag of `get pods`.
- **The `get pods` parser** (`Kubectl.ParsePods`):
  - It splits at the characters of `Environment.NewLine` and drops empty entries.
  - It skips the header line.
  - It keeps each remaining line's text before the first run of two or more white-space characters.
- **Resolution** (`Kubectl.ClosestName`): the last listed pod equal to, or starting with, the configured name.
  - When nothing matches, the console copy yields null.
  - The Core copy throws "Can't find pod name: <name>".
- **The pod-list cache of `KubectlService`**, a class holding a map from key to (list, absolute expiration) and a millisecond clock:
  - The key is `<cluster>.<namespace>.pods`.
  - A non-empty list lives one minute.
  - An empty list is stored already expired, so it is never served again.
- **The supervisor `PortForwardService`**:
  - It splits the mappings into a static group (cluster named) and a dynamic group (blank cluster).
  - Each iteration of a mapping's loop chooses its cluster and writes its source and target labels.
  - A mapping's loop stops on cancellation or on an exception.
  - The context monitor cancels the dynamic group at the first context change.

Running `kubectl` is not modelled. What it would print is a parameter (`output`). The command it would be given is a result (`ran`, `command`, `r`), except in `KubectlHelper.GetCurrentContext`, which returns only the trimmed text; its arguments are always the constant `KubectlHelper.CurrentContextCommand`.

Modules:

- `Wrappers`: `Option` and `Result`.
- `Text` covers the .NET string operations used:
  - `char.IsWhiteSpace`, which is the same set as regex `\s`;
  - `IsNullOrEmpty` and `IsNullOrWhiteSpace`;
  - ordinal `StartsWith`, `TrimEnd` and `Split` with `RemoveEmptyEntries`;
  - decimal rendering of integers;
  - `EndsWith`, `LastIndexOf` and `SplitAtLast`, which the core code does not call: they serve only the lemmas that read keys, targets and labels back.
- `Models`: both `PodMapping` records, with C# `int` as `Int32`.
- `Kubectl`: flags, table parsing, resolution and the port-forward target, shared by both copies.
- `KubectlService`: the Core service. `CreateParameter` is a module-level method, as the C# method is static. `GetPodsAsync`/`FindClosestNameAsync`/`PortForwardAsync` are methods of a class over the cache.
- `KubectlHelper`: the console copy, plus lemmas stating where it differs from the Core copy.
- `PortForwardService`: the supervisor's decisions and its two loops.

A null `Cluster`, `ClusterName` or `Namespace` is written `""`. Every use of these fields treats null and `""` alike: `IsNullOrEmpty`, `IsNullOrWhiteSpace` and string interpolation.

Two inconsistencies in the source are resolved by intent:

- `KubectlService.PortForwardAsync` and `FindClosestNameAsync` read `podMapping.Cluster` (src/KubeClient.Core/Services/KubectlService.cs:71, :83). The Core record calls that field `ClusterName`, and the model uses `ClusterName`.
- `PortForwardService` calls `GetCurrentContextAsync`, which `IKubectlService` does not declare. It also treats `PortForwardAsync`'s result as a process. In the model, the contexts it reads are inputs. An iteration's outcome is the injected port-forward function applied to the pod list the service serves. `KubectlService.PortForwardResult` is the Core service's version of that function.

Two things a supervisor might be expected to do are not done by the code, and the model follows the code:

- An exception from `PortForwardAsync` is not caught inside `MapPodAsync`'s `while` loop, so it ends that mapping's loop. It does not lead to a retry.
- The context monitor only cancels. It does not evict cached pod lists.

## Model

| member | source | states |
|---|---|---|
| Text.IsWhiteSpace | src/KubeClient.Core/Services/KubectlService.cs:35 | the spaces, tabs and line breaks are white space, and no letter, digit, '-' or '.' of a pod name is |
| Text.IsNullOrWhiteSpace | src/KubeClient.Core/Services/KubectlService.cs:49 | a null or empty string counts as blank |
| Text.BlankIffTrimsToEmpty | src/KubeClient/KubectlHelper.cs:13 | a string is blank exactly when TrimEnd leaves nothing of it |
| Text.TrimEnd | src/KubeClient/KubectlHelper.cs:13 | the result is a prefix of the input, only white space follows it, and it does not end in white space |
| Text.TrimEndUnique | src/KubeClient/KubectlHelper.cs:13 | any prefix with only white space after it and no white space at its end is the trimmed text |
| Text.Lines | src/KubeClient.Core/Services/KubectlService.cs:34 | every entry of the split is non-empty and holds no separator |
| Text.LinesSplitAt | src/KubeClient.Core/Services/KubectlService.cs:34 | splitting at a separator concatenates the splits of both sides, so line order is kept |
| Text.IntToString | src/KubeClient.Core/Services/KubectlService.cs:77 | the rendering is non-empty and starts with '-' exactly for a negative number |
| Text.IntToStringRoundTrip | src/KubeClient.Core/Services/KubectlService.cs:77 | a rendered port reads back as the same integer |
| Kubectl.Flags | src/KubeClient.Core/Services/KubectlService.cs:44-53 | --context is present iff the cluster is non-empty, --namespace iff the namespace is not blank, nothing else, the context first |
| Kubectl.Arguments | src/KubeClient.Core/Services/KubectlService.cs:44-53 | the arguments start with the verb and are the verb itself for an empty cluster and a blank namespace |
| Kubectl.ArgumentsContextFlag | src/KubeClient.Core/Services/KubectlService.cs:46-47 | "--context=<c> " directly follows the verb iff the cluster is non-empty, even when it is blank |
| Kubectl.ArgumentsNamespaceFlag | src/KubeClient.Core/Services/KubectlService.cs:49-50 | "--namespace=<n>" is appended after the context part iff the namespace is not blank |
| Kubectl.FirstColumn | src/KubeClient.Core/Services/KubectlService.cs:35 | the column is a prefix of its line, with no two-white-space run inside it, and ends at the first such run or at the line end |
| Kubectl.FirstColumnHasNoRun | src/KubeClient.Core/Services/KubectlService.cs:35 | a first column contains no run of two white-space characters |
| Kubectl.FirstColumnUnique | src/KubeClient.Core/Services/KubectlService.cs:35 | the first-column property determines the column |
| Kubectl.Columns | src/KubeClient.Core/Services/KubectlService.cs:35 | one column per line, in order, each the first column of its line |
| Kubectl.ParsePods | src/KubeClient.Core/Services/KubectlService.cs:34-35 | the number of pods is the number of non-empty lines minus one, or 0 when there are none; pod i is the first column of line i+1 |
| Kubectl.ParsePodsSkipsHeader | src/KubeClient/KubectlHelper.cs:28-30 | the line before the first line break is dropped, and the rest is read line by line |
| Kubectl.Matches | src/KubeClient.Core/Services/KubectlService.cs:84 | the match condition is exactly the ordinal prefix test; the equality test adds nothing |
| Kubectl.LastMatchIndex | src/KubeClient.Core/Services/KubectlService.cs:84 | the index is of a matching pod with no match after it, or -1 when nothing matches |
| Kubectl.ClosestName | src/KubeClient.Core/Services/KubectlService.cs:84 | null iff no pod matches; otherwise a listed pod that matches, with no later pod matching |
| Kubectl.BlankMatchNeedsBlankName | src/KubeClient.Core/Services/KubectlService.cs:74 | a blank resolved name can only come from a blank configured name |
| Kubectl.ClosestNameExamples | src/KubeClient/KubectlHelper.cs:54 | the later of two matches wins, and a name nothing starts with resolves to null |
| Kubectl.PodTarget | src/KubeClient/KubectlHelper.cs:46 | the target starts with the pod name and a space and ends with ':' and the remote port |
| Kubectl.PodTargetReadsBack | src/KubeClient.Core/Services/KubectlService.cs:77 | "<pod> <local>:<remote>" splits back into the pod name and both ports |
| KubectlService.CreateParameter | src/KubeClient.Core/Services/KubectlService.cs:44-53 | the appended arguments are the verb followed by the selected flags, the namespace flag ending in a space |
| KubectlService.CacheKey | src/KubeClient.Core/Services/KubectlService.cs:29 | the key starts with the cluster and a dot and ends with a dot, the namespace and ".pods" |
| KubectlService.Lookup | src/KubeClient.Core/Services/KubectlService.cs:30 | a hit is the stored list of a present key, and there is no hit exactly when the key is absent or its expiration is not later than now |
| KubectlService.ExpirationFor | src/KubeClient.Core/Services/KubectlService.cs:36-38 | after the epoch, the new expiration lies in the future exactly when the list is non-empty, and then one minute ahead |
| KubectlService.Store | src/KubeClient.Core/Services/KubectlService.cs:30-39 | the key is added with the new list, and every other entry stays as it was |
| KubectlService.CacheKeyReadsBack | src/KubeClient.Core/Services/KubectlService.cs:29 | the key names its cluster and namespace when the namespace has no dot |
| KubectlService.CacheKeyCollision | src/KubeClient.Core/Services/KubectlService.cs:29 | with a dot in the namespace, two different cluster and namespace pairs share a key |
| KubectlService.NonEmptyListLivesOneMinute | src/KubeClient.Core/Services/KubectlService.cs:36-37 | a stored non-empty list is served until one minute after it was read and not after |
| KubectlService.EmptyListIsNotReused | src/KubeClient.Core/Services/KubectlService.cs:36-38 | a stored empty list is never served at any time after the epoch |
| KubectlService.StoreKeepsOtherKeys | src/KubeClient.Core/Services/KubectlService.cs:30 | storing one key leaves every other key's lookup unchanged |
| KubectlService.PortForwardResult | src/KubeClient.Core/Services/KubectlService.cs:69-79 | the exception with message "Can't find pod name: <name>" iff the resolved name is null or blank, which for a non-blank name means no pod matches; otherwise the port-forward arguments followed by the last matching pod and the ports |
| KubectlService.KubectlService.constructor | src/KubeClient.Core/Services/KubectlService.cs:21-24 | an empty cache at a clock past the epoch |
| KubectlService.KubectlService.Tick | src/KubeClient.Core/Services/KubectlService.cs:37 | the clock advances and the cache is unchanged |
| KubectlService.KubectlService.GetPodsAsync | src/KubeClient.Core/Services/KubectlService.cs:26-42 | an unexpired entry is returned without running kubectl; otherwise `get pods` runs with the flags and the parsed list is stored with its expiration; afterwards the key serves the list iff it is non-empty |
| KubectlService.KubectlService.FindClosestNameAsync | src/KubeClient.Core/Services/KubectlService.cs:81-85 | the last served pod matching the name, and the same cache effect as GetPodsAsync |
| KubectlService.KubectlService.PortForwardAsync | src/KubeClient.Core/Services/KubectlService.cs:69-79 | PortForwardResult on the served list, and the same cache effect as GetPodsAsync |
| KubectlHelper.GetCurrentContext | src/KubeClient/KubectlHelper.cs:10-14 | kubectl's output without trailing white space: a prefix, only white space dropped, and trimming again changes nothing |
| KubectlHelper.GetPods | src/KubeClient/KubectlHelper.cs:16-31 | the command is "get pods " with the selected flags and no space after the namespace flag; the pods are the parsed table |
| KubectlHelper.FindClosestName | src/KubeClient/KubectlHelper.cs:51-55 | the last listed pod matching the name, or null |
| KubectlHelper.PortForwardArguments | src/KubeClient/KubectlHelper.cs:33-48 | null iff the resolved name is null or blank, which for a non-blank name means no pod matches; otherwise the port-forward arguments followed by the last matching pod and the ports |
| KubectlHelper.PortForward | src/KubeClient/KubectlHelper.cs:33-48 | the process arguments are PortForwardArguments on the parsed list, and the pods are listed with the console `get pods` command |
| KubectlHelper.GetPodsNamespaceSpace | src/KubeClient/KubectlHelper.cs:23-24 | the console `get pods` arguments lack only the space after the namespace flag, and so equal the Core ones iff the namespace is blank |
| KubectlHelper.PortForwardCopiesAgree | src/KubeClient/KubectlHelper.cs:42-46 | on the same pod list the console copy returns null exactly where the Core copy throws, and otherwise the same arguments |
| PortForwardService.IsStatic | src/KubeClient.Core/Services/PortForwardService.cs:119 | a mapping is static exactly when its ClusterName has a character that is not white space |
| PortForwardService.StaticMappings | src/KubeClient.Core/Services/PortForwardService.cs:119-120 | the static group holds only mappings with a non-blank cluster and is no longer than the configuration |
| PortForwardService.DynamicMappings | src/KubeClient.Core/Services/PortForwardService.cs:80-81 | the dynamic group holds only mappings with a blank cluster and is no longer than the configuration |
| PortForwardService.PartitionIsExact | src/KubeClient.Core/Services/PortForwardService.cs:80-81 | the two groups together hold every configured mapping exactly as often as it is configured |
| PortForwardService.PartitionMembership | src/KubeClient.Core/Services/PortForwardService.cs:119 | a mapping is static iff configured with a non-blank cluster, and dynamic iff configured with a blank one |
| PortForwardService.StaticMappingsKeepOrder | src/KubeClient.Core/Services/PortForwardService.cs:119-120 | the static filter of a concatenation is the concatenation of the filters, so configuration order is kept |
| PortForwardService.DynamicMappingsKeepOrder | src/KubeClient.Core/Services/PortForwardService.cs:80-81 | the dynamic filter of a concatenation is the concatenation of the filters, so configuration order is kept |
| PortForwardService.ClusterFor | src/KubeClient.Core/Services/PortForwardService.cs:49-51 | the cluster is the mapping's own or the current context, and a blank result can only be the current context |
| PortForwardService.StaticIgnoresContext | src/KubeClient.Core/Services/PortForwardService.cs:49-51 | a static mapping's iterations use its own cluster whatever the current context |
| PortForwardService.DynamicFollowsContext | src/KubeClient.Core/Services/PortForwardService.cs:49-51 | a dynamic mapping's iteration uses the context read in that iteration |
| PortForwardService.BlankClusterNameIsDynamicButPassed | src/KubeClient.Core/Services/PortForwardService.cs:80 | a whitespace-only cluster makes a mapping dynamic, yet the port-forward flags still carry it as --context |
| PortForwardService.SourceLabel | src/KubeClient.Core/Services/PortForwardService.cs:53 | the label is "localhost:" followed by the rendered local port |
| PortForwardService.TargetLabel | src/KubeClient.Core/Services/PortForwardService.cs:54 | the label starts with the cluster and a dot and ends with ':' and the remote port |
| PortForwardService.LabelsReadBack | src/KubeClient.Core/Services/PortForwardService.cs:53-54 | the source label is "localhost" and the local port, and the target label is cluster, namespace and name then the remote port, each split at its last ':' and reading back |
| PortForwardService.MapPod | src/KubeClient.Core/Services/PortForwardService.cs:43-73 | iterations run only while the token is not cancelled; each picks its cluster and labels and calls the injected port-forward; all but the last succeed, and the loop stops only at a cancelled token or after a failure |
| PortForwardService.IterationWithKubectlService | src/KubeClient.Core/Services/PortForwardService.cs:58 | with the Core service, an iteration for a non-blank name fails iff no served pod matches, and then with the not-found message |
| PortForwardService.MonitorContextChange | src/KubeClient.Core/Services/PortForwardService.cs:87-113 | the monitor reads while shutdown is not requested and cancels at the first reading that differs from the recorded context, then stops; while readings equal it, it never cancels |

## Left out

- Running kubectl (`ExecuteCommandAsync`, `ExecuteKubectlCommand`, `CreateKubectlProcess`, `Process.Start`/`WaitForExit`/`Kill`): its output is a parameter and its arguments are a result.
- The single-flight behaviour of `CacheService` (its `SemaphoreSlim` around `IMemoryCache`): concurrency is not modelled. The cache is modelled as the sequential map-and-expiration behaviour `GetPodsAsync` relies on. An entry counts as expired once the clock reaches its absolute expiration.
- `DateTimeOffset.Now`: it is the class's integer clock in milliseconds since the Unix epoch, advanced by `Tick`.
- Task fan-out and timing: `Task.Run`, `ForEachAsync`, `token.Register`, `Task.Delay(500)` and `Task.Delay(1000)`. The two loops run over the sequence of what they observe: token states, contexts, pod lists and shutdown requests.
- `RunAsync` and the outer loop of `ForwardDynamicClusterAsync` are modelled only through their parts. Those parts are the partition, `MapPod` and `MonitorContextChange`. The outer loop records a context, starts the dynamic group, awaits every task and starts again; that sequencing of tasks is not modelled.
- `PortForwardService.MapPod`: the injected `IKubectlService` is a function parameter applied to each iteration's served pod list (`Observation.pods`). It is not a call into the cache class, whose behaviour is `KubectlService.KubectlService`.
- `MapPodAsync`'s log lines are modelled as the two labels each iteration produces. The process it starts, waits for and kills is left out, like every process.
- `PortForwarder.cs`, both `Startup.cs` files, `Program.cs` and the dependency-injection, logging and configuration code: these are hosting code, not core logic.
- `Environment.NewLine` is a parameter, `newLine`, whose characters are the separators.
- A null `Name`: `StartsWith(null)` throws in .NET. The model's names are strings.
- `StartsWith(string)` is culture-sensitive in .NET. It is modelled as an ordinal prefix test.
