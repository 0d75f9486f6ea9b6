/**
 * The text handling shared by KubectlService (the Core library) and
 * KubectlHelper (the console program): which optional flags a kubectl command
 * carries, how the table printed by `kubectl get pods` is read, which pod a
 * configured name resolves to, and how the port-forward target is written.
 */
module Kubectl {
  import opened Wrappers
  import opened Text
  import opened Models

  // ---------------------------------------------------------------------
  // Optional flags
  // ---------------------------------------------------------------------

  /** An optional flag selecting where a kubectl command runs. */
  datatype Flag = Context(cluster: string) | Namespace(name: string)

  /**
   * The flags both programs append to a verb: --context only for a non-empty
   * cluster name (a blank one is still passed), --namespace only for a
   * namespace that is not blank, and the context first.
   */
  function Flags(clusterName: string, namespaceName: string): (r: seq<Flag>)
    ensures Context(clusterName) in r <==> !IsNullOrEmpty(clusterName)
    ensures Namespace(namespaceName) in r <==> !IsNullOrWhiteSpace(namespaceName)
    ensures forall k :: 0 <= k < |r| ==> r[k] == Context(clusterName) || r[k] == Namespace(namespaceName)
    ensures forall k :: 0 <= k < |r| && r[k].Context? ==> k == 0
    ensures |r| == (if IsNullOrEmpty(clusterName) then 0 else 1) + (if IsNullOrWhiteSpace(namespaceName) then 0 else 1)
  {
    (if IsNullOrEmpty(clusterName) then [] else [Context(clusterName)])
    + (if IsNullOrWhiteSpace(namespaceName) then [] else [Namespace(namespaceName)])
  }

  /**
   * How a flag is written. The context flag always ends in a space; after the
   * namespace flag comes namespaceEnd, which is where the two programs differ.
   */
  function FlagText(f: Flag, namespaceEnd: string): (t: string)
    ensures StartsWith(t, "--")
    ensures f.Context? ==> EndsWith(t, " ")
  {
    match f
    case Context(c) => "--context=" + c + " "
    case Namespace(n) => "--namespace=" + n + namespaceEnd
  }

  /** The flags written one after the other. */
  function FlagsText(fs: seq<Flag>, namespaceEnd: string): (t: string)
    ensures fs == [] <==> t == ""
    ensures fs != [] ==> StartsWith(t, "--")
  {
    if fs == [] then "" else FlagText(fs[0], namespaceEnd) + FlagsText(fs[1..], namespaceEnd)
  }

  /** The argument string: the verb followed by the flags that Flags selects. */
  function Arguments(verb: string, clusterName: string, namespaceName: string, namespaceEnd: string): (r: string)
    ensures StartsWith(r, verb)
    ensures IsNullOrEmpty(clusterName) && IsNullOrWhiteSpace(namespaceName) ==> r == verb
  {
    verb + FlagsText(Flags(clusterName, namespaceName), namespaceEnd)
  }

  /** The text the flags contribute, one flag after the other. */
  lemma ArgumentsLayout(verb: string, clusterName: string, namespaceName: string, namespaceEnd: string)
    ensures Arguments(verb, clusterName, namespaceName, namespaceEnd)
         == verb
          + (if IsNullOrEmpty(clusterName) then "" else "--context=" + clusterName + " ")
          + (if IsNullOrWhiteSpace(namespaceName) then "" else "--namespace=" + namespaceName + namespaceEnd)
  {
    var fs := Flags(clusterName, namespaceName);
    assert FlagsText([], namespaceEnd) == "";
    if |fs| == 2 {
      assert fs[1..] == [fs[1]] && fs[1..][1..] == [];
      assert FlagsText(fs, namespaceEnd) == FlagText(fs[0], namespaceEnd) + FlagText(fs[1], namespaceEnd);
    } else if |fs| == 1 {
      assert fs[1..] == [];
      assert FlagsText(fs, namespaceEnd) == FlagText(fs[0], namespaceEnd);
    }
  }

  /**
   * "--context=<c> " follows the verb exactly when the cluster name is not
   * empty; a whitespace-only name is passed on.
   */
  lemma ArgumentsContextFlag(verb: string, clusterName: string, namespaceName: string, namespaceEnd: string)
    ensures StartsWith(Arguments(verb, clusterName, namespaceName, namespaceEnd), verb + "--context=" + clusterName + " ")
        <==> !IsNullOrEmpty(clusterName)
  {
    var r := Arguments(verb, clusterName, namespaceName, namespaceEnd);
    var p := verb + "--context=" + clusterName + " ";
    ArgumentsLayout(verb, clusterName, namespaceName, namespaceEnd);
    if IsNullOrEmpty(clusterName) && !IsNullOrWhiteSpace(namespaceName) {
      assert r[|verb| + 2] == 'n' && p[|verb| + 2] == 'c';
    } else if !IsNullOrEmpty(clusterName) {
      assert r[..|p|] == p;
    }
  }

  /**
   * The namespace flag comes after whatever the cluster contributes, and only
   * for a namespace that is not blank.
   */
  lemma ArgumentsNamespaceFlag(verb: string, clusterName: string, namespaceName: string, namespaceEnd: string)
    ensures Arguments(verb, clusterName, namespaceName, namespaceEnd)
         == Arguments(verb, clusterName, "", namespaceEnd)
          + (if IsNullOrWhiteSpace(namespaceName) then "" else "--namespace=" + namespaceName + namespaceEnd)
  {
    ArgumentsLayout(verb, clusterName, namespaceName, namespaceEnd);
    ArgumentsLayout(verb, clusterName, "", namespaceEnd);
  }

  // ---------------------------------------------------------------------
  // Reading the table printed by `kubectl get pods`
  // ---------------------------------------------------------------------

  /** Two white-space characters start at index i of s. */
  predicate WhiteSpaceRunAt(s: string, i: int) {
    0 <= i && i + 1 < |s| && IsWhiteSpace(s[i]) && IsWhiteSpace(s[i + 1])
  }

  /**
   * t is Regex.Split(line, @"\s{2,}")[0]: the text of line before its first
   * run of two or more white-space characters, or the whole line.
   */
  predicate IsFirstColumn(t: string, line: string) {
    && StartsWith(line, t)
    && (forall i :: 0 <= i < |t| ==> !WhiteSpaceRunAt(line, i))
    && (t == line || WhiteSpaceRunAt(line, |t|))
  }

  function FirstColumn(line: string): (t: string)
    ensures IsFirstColumn(t, line)
  {
    if |line| < 2 then line
    else if IsWhiteSpace(line[0]) && IsWhiteSpace(line[1]) then ""
    else
      var t := [line[0]] + FirstColumn(line[1..]);
      assert forall i :: 1 <= i < |line| ==> (WhiteSpaceRunAt(line, i) <==> WhiteSpaceRunAt(line[1..], i - 1));
      t
  }

  /** The first column of a line holds no run of two white-space characters. */
  lemma FirstColumnHasNoRun(t: string, line: string)
    requires IsFirstColumn(t, line)
    ensures forall i :: !WhiteSpaceRunAt(t, i)
  {
    forall i | WhiteSpaceRunAt(t, i) ensures false {
      assert t[i] == line[i] && t[i + 1] == line[i + 1];
      assert WhiteSpaceRunAt(line, i);
    }
  }

  /** IsFirstColumn pins the column down: FirstColumn is the only choice. */
  lemma FirstColumnUnique(t: string, line: string)
    requires IsFirstColumn(t, line)
    ensures t == FirstColumn(line)
  {
    var u := FirstColumn(line);
    assert |t| == |u|;
    assert t == line[..|t|] && u == line[..|u|];
  }

  /** Select(a => Regex.Split(a, @"\s{2,}")[0]) over a list of lines. */
  function Columns(lines: seq<string>): (cs: seq<string>)
    ensures |cs| == |lines|
    ensures forall i :: 0 <= i < |lines| ==> IsFirstColumn(cs[i], lines[i])
  {
    seq(|lines|, i requires 0 <= i < |lines| => FirstColumn(lines[i]))
  }

  /**
   * The pod names in kubectl's output: the non-empty lines (split at the
   * characters of newLine), less the header line, each cut to its first column.
   */
  function ParsePods(output: string, newLine: string): (pods: seq<string>)
    ensures var lines := Lines(output, newLine);
      && |pods| == (if |lines| == 0 then 0 else |lines| - 1)
      && forall i :: 0 <= i < |pods| ==> IsFirstColumn(pods[i], lines[i + 1])
  {
    var lines := Lines(output, newLine);
    if |lines| == 0 then [] else Columns(lines[1..])
  }

  /**
   * A header line followed by a line break is dropped, and the body is read
   * row by row.
   */
  lemma ParsePodsSkipsHeader(header: string, c: char, body: string, newLine: string)
    requires c in newLine && header != [] && NoneIn(header, newLine)
    ensures ParsePods(header + [c] + body, newLine) == Columns(Lines(body, newLine))
  {
    LinesSplitAt(header, c, body, newLine);
    LinesOfOneLine(header, newLine);
    assert Lines(header + [c] + body, newLine)[1..] == Lines(body, newLine);
  }

  // ---------------------------------------------------------------------
  // Resolving a configured name to a pod
  // ---------------------------------------------------------------------

  /**
   * The condition both programs give LastOrDefault: equal to, or starting
   * with, the name. The equality test adds nothing to the prefix test.
   */
  predicate Matches(pod: string, name: string): (r: bool)
    ensures r <==> StartsWith(pod, name)
  {
    assert pod == name ==> pod[..|name|] == pod;
    pod == name || StartsWith(pod, name)
  }

  /** The index of the last matching pod, or -1 when none matches. */
  function LastMatchIndex(pods: seq<string>, name: string): (k: int)
    ensures -1 <= k < |pods|
    ensures k >= 0 ==> Matches(pods[k], name)
    ensures forall j :: k < j < |pods| ==> !Matches(pods[j], name)
  {
    if pods == [] then -1
    else if Matches(pods[|pods| - 1], name) then |pods| - 1
    else LastMatchIndex(pods[..|pods| - 1], name)
  }

  /**
   * LastOrDefault(a => a == name || a.StartsWith(name)): the last listed pod
   * that matches, or null (None) when none does.
   */
  function ClosestName(pods: seq<string>, name: string): (r: Option<string>)
    ensures r.None? <==> forall j :: 0 <= j < |pods| ==> !Matches(pods[j], name)
    ensures r.Some? ==> exists k :: 0 <= k < |pods| && pods[k] == r.value && Matches(pods[k], name)
                                    && forall j :: k < j < |pods| ==> !Matches(pods[j], name)
  {
    var k := LastMatchIndex(pods, name);
    if k < 0 then None else Some(pods[k])
  }

  /** A match that is blank can only come from a blank configured name. */
  lemma BlankMatchNeedsBlankName(pods: seq<string>, name: string)
    requires ClosestName(pods, name).Some? && IsNullOrWhiteSpace(ClosestName(pods, name).value)
    ensures IsNullOrWhiteSpace(name)
  {
    var p := ClosestName(pods, name).value;
    PrefixOfBlankIsBlank(p, name);
  }

  /** The resolution examples: the later of two matches wins, and no match is null. */
  lemma ClosestNameExamples()
    ensures ClosestName(["web-1", "web-2", "db-1"], "web") == Some("web-2")
    ensures ClosestName(["web-1", "web-2", "db-1"], "db") == Some("db-1")
    ensures ClosestName(["web-1", "web-2", "db-1"], "cache") == None
  {
    var pods := ["web-1", "web-2", "db-1"];
    assert pods[..2] == ["web-1", "web-2"] && pods[..2][..1] == ["web-1"] && pods[..2][..1][..0] == [];
    assert "db-1"[..3][0] == 'd' && "web-2"[..3] == "web";
    assert "db-1"[..2] == "db";
    assert "web-1"[..5][0] == 'w' && "web-2"[..5][0] == 'w' && |"db-1"| < |"cache"|;
  }

  // ---------------------------------------------------------------------
  // The port-forward target
  // ---------------------------------------------------------------------

  /** "<pod> <local>:<remote>", appended after the flags of a port-forward command. */
  function PodTarget(podName: string, localPort: Int32, remotePort: Int32): (target: string)
    ensures StartsWith(target, podName + " ")
    ensures EndsWith(target, ":" + IntToString(remotePort as int))
  {
    var local, remote := IntToString(localPort as int), IntToString(remotePort as int);
    var t := podName + " " + local + ":" + remote;
    assert t == (podName + " ") + (local + ":" + remote);
    assert t == (podName + " " + local) + (":" + remote);
    t
  }

  /**
   * The target reads back: after its last space stand the two ports, separated
   * by the last ':', and before it the pod name.
   */
  lemma PodTargetReadsBack(podName: string, localPort: Int32, remotePort: Int32)
    ensures var ports := IntToString(localPort as int) + ":" + IntToString(remotePort as int);
      && SplitAtLast(PodTarget(podName, localPort, remotePort), ' ') == Some((podName, ports))
      && SplitAtLast(ports, ':') == Some((IntToString(localPort as int), IntToString(remotePort as int)))
      && ParseInt(IntToString(localPort as int)) == Some(localPort as int)
      && ParseInt(IntToString(remotePort as int)) == Some(remotePort as int)
  {
    var l, r := IntToString(localPort as int), IntToString(remotePort as int);
    IntToStringHasNoSeparators(localPort as int);
    IntToStringHasNoSeparators(remotePort as int);
    var ports := l + ":" + r;
    assert ' ' !in ports by {
      forall k | 0 <= k < |ports| ensures ports[k] != ' ' {
        if k < |l| { assert ports[k] == l[k]; }
        else if k > |l| { assert ports[k] == r[k - |l| - 1]; }
      }
    }
    assert PodTarget(podName, localPort, remotePort) == podName + [' '] + ports;
    SplitAtLastAfter(podName, ' ', ports);
    assert ports == l + [':'] + r;
    SplitAtLastAfter(l, ':', r);
    IntToStringRoundTrip(localPort as int);
    IntToStringRoundTrip(remotePort as int);
  }
}
