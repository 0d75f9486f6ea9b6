/**
 * KubectlService of the Core library: kubectl argument strings, the
 * pod-list cache and the port-forward command. Running kubectl is not
 * modelled: the text it would print is a parameter, and the command it would
 * be given is a result.
 */
module KubectlService {
  import opened Wrappers
  import opened Text
  import opened Models
  import opened Kubectl

  /** The exception PortForwardAsync throws when no pod name is found. */
  datatype Error = PodNotFound(message: string)

  /** The message of that exception. */
  function NotFoundMessage(name: string): string {
    "Can't find pod name: " + name
  }

  /**
   * CreateParameter: appends "--context=<c> " for a non-empty cluster name
   * and "--namespace=<n> " for a namespace that is not blank.
   */
  method CreateParameter(command: string, clusterName: string, namespaceName: string) returns (r: string)
    ensures r == Arguments(command, clusterName, namespaceName, " ")
  {
    ArgumentsLayout(command, clusterName, namespaceName, " ");
    r := command;
    if !IsNullOrEmpty(clusterName) {
      r := r + ("--context=" + clusterName + " ");
    }
    if !IsNullOrWhiteSpace(namespaceName) {
      r := r + ("--namespace=" + namespaceName + " ");
    }
  }

  // ---------------------------------------------------------------------
  // The pod-list cache
  // ---------------------------------------------------------------------

  /** DateTimeOffset.Now.AddMinutes(1), on a clock in milliseconds since the Unix epoch. */
  const EntryLifetime: int := 60_000

  /** DateTimeOffset.FromUnixTimeMilliseconds(1). */
  const EmptyListExpiration: int := 1

  datatype CacheEntry = CacheEntry(value: seq<string>, absoluteExpiration: int)

  /** The key under which the pod list of a cluster and namespace is cached. */
  function CacheKey(clusterName: string, namespaceName: string): (key: string)
    ensures StartsWith(key, clusterName + ".") && EndsWith(key, "." + namespaceName + ".pods")
  {
    clusterName + "." + namespaceName + ".pods"
  }

  /** The cluster and namespace of a key, the namespace being the text between its last two dots. */
  function KeyParts(key: string): (r: Option<(string, string)>)
    ensures r.Some? ==> key == r.value.0 + "." + r.value.1 + ".pods"
  {
    if EndsWith(key, ".pods") then SplitAtLast(key[..|key| - 5], '.') else None
  }

  /**
   * A key names its cluster and namespace when the namespace has no dot, as
   * Kubernetes namespace names never do.
   */
  lemma CacheKeyReadsBack(clusterName: string, namespaceName: string)
    requires '.' !in namespaceName
    ensures KeyParts(CacheKey(clusterName, namespaceName)) == Some((clusterName, namespaceName))
  {
    var key := CacheKey(clusterName, namespaceName);
    assert key[|key| - 5..] == ".pods";
    assert key[..|key| - 5] == clusterName + ['.'] + namespaceName;
    SplitAtLastAfter(clusterName, '.', namespaceName);
  }

  /** With a dot in the namespace, two different pairs share a key. */
  lemma CacheKeyCollision()
    ensures CacheKey("a.b", "c") == CacheKey("a", "b.c")
  {
  }

  /**
   * What the cache holds for key at time now: an entry counts only while its
   * absolute expiration is later than now.
   */
  function Lookup(entries: map<string, CacheEntry>, key: string, now: int): (r: Option<seq<string>>)
    ensures r.Some? ==> key in entries && r.value == entries[key].value
    ensures r.None? <==> key !in entries || entries[key].absoluteExpiration <= now
  {
    if key in entries && now < entries[key].absoluteExpiration then Some(entries[key].value) else None
  }

  /** The expiration GetPodsAsync sets on the entry of a freshly read list. */
  function ExpirationFor(list: seq<string>, now: int): (expiration: int)
    ensures now >= EmptyListExpiration ==> (now < expiration <==> list != [])
    ensures list != [] ==> expiration - now == EntryLifetime
  {
    if |list| > 0 then now + EntryLifetime else EmptyListExpiration
  }

  /** The cache after a freshly read list is stored under key at time now. */
  function Store(entries: map<string, CacheEntry>, key: string, list: seq<string>, now: int): (r: map<string, CacheEntry>)
    ensures r.Keys == entries.Keys + {key}
    ensures r[key].value == list
    ensures forall k :: k in entries && k != key ==> r[k] == entries[k]
  {
    entries[key := CacheEntry(list, ExpirationFor(list, now))]
  }

  /** A non-empty list is served for one minute after it was read, and not after. */
  lemma NonEmptyListLivesOneMinute(entries: map<string, CacheEntry>, key: string, list: seq<string>, now: int, later: int)
    requires list != [] && now <= later
    ensures Lookup(Store(entries, key, list, now), key, later) == (if later < now + EntryLifetime then Some(list) else None)
  {
  }

  /** An empty list is never served again: its expiration is already past. */
  lemma EmptyListIsNotReused(entries: map<string, CacheEntry>, key: string, now: int, later: int)
    requires later >= EmptyListExpiration
    ensures Lookup(Store(entries, key, [], now), key, later) == None
  {
  }

  /** Storing under one key leaves what every other key serves unchanged. */
  lemma StoreKeepsOtherKeys(entries: map<string, CacheEntry>, key: string, other: string, list: seq<string>, now: int, later: int)
    requires other != key
    ensures Lookup(Store(entries, key, list, now), other, later) == Lookup(entries, other, later)
  {
  }

  // ---------------------------------------------------------------------
  // Resolution and the port-forward command
  // ---------------------------------------------------------------------

  /**
   * What PortForwardAsync does with the pod list it was served: fail when the
   * resolved name is null or blank, otherwise build the command.
   */
  function PortForwardResult(podMapping: PodMapping, pods: seq<string>): (r: Result<string, Error>)
    ensures r.Err? <==> ClosestName(pods, podMapping.Name).None? || IsNullOrWhiteSpace(ClosestName(pods, podMapping.Name).value)
    ensures r.Err? ==> r.error == PodNotFound(NotFoundMessage(podMapping.Name))
    ensures !IsNullOrWhiteSpace(podMapping.Name) ==>
      (r.Err? <==> forall j :: 0 <= j < |pods| ==> !Matches(pods[j], podMapping.Name))
    ensures r.Ok? ==> exists k :: (
      && 0 <= k < |pods|
      && Matches(pods[k], podMapping.Name)
      && (forall j :: k < j < |pods| ==> !Matches(pods[j], podMapping.Name))
      && r.value == Arguments("port-forward ", podMapping.ClusterName, podMapping.Namespace, " ")
                    + PodTarget(pods[k], podMapping.LocalPort, podMapping.RemotePort))
  {
    var podName := ClosestName(pods, podMapping.Name);
    if podName.None? then
      Err(PodNotFound(NotFoundMessage(podMapping.Name)))
    else if IsNullOrWhiteSpace(podName.value) then
      BlankMatchNeedsBlankName(pods, podMapping.Name);
      Err(PodNotFound(NotFoundMessage(podMapping.Name)))
    else
      Ok(Arguments("port-forward ", podMapping.ClusterName, podMapping.Namespace, " ")
         + PodTarget(podName.value, podMapping.LocalPort, podMapping.RemotePort))
  }

  /**
   * The service with its memory cache, the part of IMemoryCache that it uses:
   * entries by key, each with a list and an absolute expiration, and a clock.
   */
  class KubectlService {
    var entries: map<string, CacheEntry>
    var now: int
    /** The characters of Environment.NewLine. */
    const newLine: string

    /**
     * The clock is past the Unix epoch, and an empty list is only ever stored
     * with the expiration GetPodsAsync gives it.
     */
    ghost predicate Valid()
      reads this
    {
      && now >= EmptyListExpiration
      && forall k :: k in entries && entries[k].value == [] ==> entries[k].absoluteExpiration == EmptyListExpiration
    }

    constructor (newLine: string, start: int)
      requires start >= EmptyListExpiration
      ensures Valid()
      ensures entries == map[] && now == start && this.newLine == newLine
    {
      entries := map[];
      now := start;
      this.newLine := newLine;
    }

    /** Time passes. */
    method Tick(ms: nat)
      requires Valid()
      modifies this
      ensures Valid()
      ensures now == old(now) + ms && entries == old(entries)
    {
      now := now + ms;
    }

    /** The list a call of GetPodsAsync returns now, given what kubectl would print. */
    ghost function ServedPods(clusterName: string, namespaceName: string, output: string): seq<string>
      reads this
    {
      Lookup(entries, CacheKey(clusterName, namespaceName), now).GetOr(ParsePods(output, newLine))
    }

    /**
     * GetPodsAsync: the cached list while its entry is unexpired, without
     * running kubectl; otherwise runs `get pods` with the flags
     * (ran is the argument string) and caches what it parses.
     */
    method GetPodsAsync(clusterName: string, namespaceName: string, output: string)
      returns (pods: seq<string>, ran: Option<string>)
      requires Valid()
      modifies this
      ensures Valid() && now == old(now)
      ensures pods == old(ServedPods(clusterName, namespaceName, output))
      ensures var key := CacheKey(clusterName, namespaceName);
        if Lookup(old(entries), key, now).Some? then
          ran == None && entries == old(entries)
        else
          ran == Some(Arguments("get pods ", clusterName, namespaceName, " "))
          && entries == Store(old(entries), key, pods, now)
      ensures Lookup(entries, CacheKey(clusterName, namespaceName), now) == (if pods == [] then None else Some(pods))
    {
      var key := CacheKey(clusterName, namespaceName);
      if key in entries && now < entries[key].absoluteExpiration {
        pods, ran := entries[key].value, None;
        return;
      }
      var command := CreateParameter("get pods ", clusterName, namespaceName);
      pods := ParsePods(output, newLine);
      var expiration := if |pods| > 0 then now + EntryLifetime else EmptyListExpiration;
      entries := entries[key := CacheEntry(pods, expiration)];
      ran := Some(command);
    }

    /** FindClosestNameAsync: the last served pod that matches the configured name. */
    method FindClosestNameAsync(podMapping: PodMapping, output: string)
      returns (podName: Option<string>, ran: Option<string>)
      requires Valid()
      modifies this
      ensures Valid() && now == old(now)
      ensures podName == ClosestName(old(ServedPods(podMapping.ClusterName, podMapping.Namespace, output)), podMapping.Name)
      ensures var key := CacheKey(podMapping.ClusterName, podMapping.Namespace);
        if Lookup(old(entries), key, now).Some? then
          ran == None && entries == old(entries)
        else
          ran == Some(Arguments("get pods ", podMapping.ClusterName, podMapping.Namespace, " "))
          && entries == Store(old(entries), key, ParsePods(output, newLine), now)
    {
      var pods;
      pods, ran := GetPodsAsync(podMapping.ClusterName, podMapping.Namespace, output);
      podName := ClosestName(pods, podMapping.Name);
    }

    /**
     * PortForwardAsync: the port-forward command for the resolved pod, or the
     * exception when the resolved name is null or blank.
     */
    method PortForwardAsync(podMapping: PodMapping, output: string)
      returns (r: Result<string, Error>, ran: Option<string>)
      requires Valid()
      modifies this
      ensures Valid() && now == old(now)
      ensures r == PortForwardResult(podMapping, old(ServedPods(podMapping.ClusterName, podMapping.Namespace, output)))
      ensures var key := CacheKey(podMapping.ClusterName, podMapping.Namespace);
        if Lookup(old(entries), key, now).Some? then
          ran == None && entries == old(entries)
        else
          ran == Some(Arguments("get pods ", podMapping.ClusterName, podMapping.Namespace, " "))
          && entries == Store(old(entries), key, ParsePods(output, newLine), now)
    {
      ghost var pods := ServedPods(podMapping.ClusterName, podMapping.Namespace, output);
      var command := CreateParameter("port-forward ", podMapping.ClusterName, podMapping.Namespace);
      var podName;
      podName, ran := FindClosestNameAsync(podMapping, output);
      assert podName == ClosestName(pods, podMapping.Name);
      if podName.None? || IsNullOrWhiteSpace(podName.value) {
        r := Err(PodNotFound(NotFoundMessage(podMapping.Name)));
        assert r == PortForwardResult(podMapping, pods);
        return;
      }
      command := command + (podName.value + " " + IntToString(podMapping.LocalPort as int)
                            + ":" + IntToString(podMapping.RemotePort as int));
      assert command == Arguments("port-forward ", podMapping.ClusterName, podMapping.Namespace, " ")
                        + PodTarget(podName.value, podMapping.LocalPort, podMapping.RemotePort);
      r := Ok(command);
      assert r == PortForwardResult(podMapping, pods);
    }
  }
}
