/**
 * The sandbox executor's bookkeeping: the memory limit it gives containers, the options
 * a container is created with, and the set of containers still running. Docker itself
 * (creating, starting, waiting, reading logs, removing) is outside the model: the
 * container a creation returns and the way a run ends are parameters, and every forced
 * removal is recorded in order.
 */
module Executor {
  import opened Wrappers
  import opened Decimal

  const MiB: nat := 1024 * 1024
  const GiB: nat := 1024 * 1024 * 1024
  /** The limit used when the configured one is not understood: 512 MiB. */
  const DefaultMemory: nat := 512 * 1024 * 1024
  const TimeoutMessage := "Execution timeout"

  // ---------------------------------------------------------------------------------
  // The memory limit.
  // ---------------------------------------------------------------------------------

  predicate IsUnit(c: char)
  {
    c == 'm' || c == 'M' || c == 'g' || c == 'G'
  }

  /** `/^(\d+)(m|g)$/i`: one or more ASCII digits, then a unit letter in either case, and nothing else. */
  predicate IsMemoryLimit(limit: string)
  {
    |limit| >= 2 && AllDigits(limit[..|limit| - 1]) && IsUnit(limit[|limit| - 1])
  }

  /** `parseMemoryLimit`: the limit in bytes. */
  function ParseMemoryLimit(limit: string): (r: nat)
    ensures !IsMemoryLimit(limit) ==> r == DefaultMemory
    ensures IsMemoryLimit(limit) && (limit[|limit| - 1] == 'g' || limit[|limit| - 1] == 'G') ==>
              r == DigitsValue(limit[..|limit| - 1]) * GiB
    ensures IsMemoryLimit(limit) && (limit[|limit| - 1] == 'm' || limit[|limit| - 1] == 'M') ==>
              r == DigitsValue(limit[..|limit| - 1]) * MiB
  {
    if !IsMemoryLimit(limit) then DefaultMemory
    else
      var value := DigitsValue(limit[..|limit| - 1]);
      var unit := limit[|limit| - 1];
      if unit == 'g' || unit == 'G' then value * GiB else value * MiB
  }

  /** `<n>m` and `<n>M` read back as n mebibytes. */
  lemma MegabytesRoundTrip(n: nat, unit: char)
    requires unit == 'm' || unit == 'M'
    ensures ParseMemoryLimit(NatText(n) + [unit]) == n * MiB
  {
    var limit := NatText(n) + [unit];
    assert limit[..|limit| - 1] == NatText(n);
    ReadWritten(n);
  }

  /** `<n>g` and `<n>G` read back as n gibibytes. */
  lemma GigabytesRoundTrip(n: nat, unit: char)
    requires unit == 'g' || unit == 'G'
    ensures ParseMemoryLimit(NatText(n) + [unit]) == n * GiB
  {
    var limit := NatText(n) + [unit];
    assert limit[..|limit| - 1] == NatText(n);
    ReadWritten(n);
  }

  /** The case of the unit letter does not matter. */
  lemma UnitCaseInsensitive(digits: string)
    requires |digits| >= 1 && AllDigits(digits)
    ensures ParseMemoryLimit(digits + "m") == ParseMemoryLimit(digits + "M")
    ensures ParseMemoryLimit(digits + "g") == ParseMemoryLimit(digits + "G")
  {
    assert (digits + "m")[..|digits|] == digits && (digits + "M")[..|digits|] == digits;
    assert (digits + "g")[..|digits|] == digits && (digits + "G")[..|digits|] == digits;
  }

  /** Other units, signs, spaces, a missing number or a missing unit all fall back to the default. */
  lemma OthersUseDefault()
    ensures ParseMemoryLimit("512") == DefaultMemory
    ensures ParseMemoryLimit("512k") == DefaultMemory
    ensures ParseMemoryLimit("m") == DefaultMemory
    ensures ParseMemoryLimit("-1g") == DefaultMemory
    ensures ParseMemoryLimit("1 g") == DefaultMemory
    ensures ParseMemoryLimit("1gb") == DefaultMemory
  {
    assert !IsDigit('-') && !IsDigit(' ') && !IsUnit('b') && !IsUnit('k') && !IsUnit('2');
    assert "-1g"[..2][0] == '-';
    assert "1 g"[..2][1] == ' ';
  }

  // ---------------------------------------------------------------------------------
  // Container options.
  // ---------------------------------------------------------------------------------

  /** `ExecutorConfig` without the CPU limit. */
  datatype ExecutorConfig = ExecutorConfig(memoryLimit: string, timeoutMs: nat, hostNetwork: Option<bool>)

  /** `ExecuteOptions`; `env` lists the record's entries in its property order. */
  datatype ExecuteOptions = ExecuteOptions(image: string, command: seq<string>,
                                           env: Option<seq<(string, string)>>, workdir: Option<string>)

  /** The options a container is created with (the CPU quota is not modelled). */
  datatype ContainerOptions = ContainerOptions(image: string, cmd: seq<string>, env: Option<seq<string>>,
                                               workingDir: Option<string>, networkDisabled: bool,
                                               memory: nat, autoRemove: bool)

  /** One `Env` entry: `k=v`. */
  function EnvLine(key: string, value: string): string
  {
    key + "=" + value
  }

  /** The text before the first `=`, and the text after it. */
  function SplitEnvLine(line: string): (r: Option<(string, string)>)
    ensures r.Some? ==> '=' !in r.value.0
  {
    if line == [] then None
    else if line[0] == '=' then Some(("", line[1..]))
    else match SplitEnvLine(line[1..])
      case None => None
      case Some((k, v)) => Some(([line[0]] + k, v))
  }

  /** Splitting at the first `=` recovers the key and the value, when the key holds no `=`. */
  lemma {:induction false} EnvLineRoundTrip(key: string, value: string)
    requires '=' !in key
    ensures SplitEnvLine(EnvLine(key, value)) == Some((key, value))
  {
    if key == [] {
      assert EnvLine(key, value) == "=" + value;
    } else {
      assert EnvLine(key, value)[1..] == EnvLine(key[1..], value);
      assert '=' !in key[1..];
      EnvLineRoundTrip(key[1..], value);
      assert [key[0]] + key[1..] == key;
    }
  }

  /** `Object.entries(env).map(([k, v]) => \`${k}=${v}\`)`. */
  function EnvLines(env: seq<(string, string)>): (r: seq<string>)
    ensures |r| == |env|
    ensures forall i :: 0 <= i < |r| ==> r[i] == EnvLine(env[i].0, env[i].1)
  {
    seq(|env|, i requires 0 <= i < |env| => EnvLine(env[i].0, env[i].1))
  }

  /** The options `execute` creates its container with. */
  function ContainerOptionsOf(config: ExecutorConfig, options: ExecuteOptions): (r: ContainerOptions)
    ensures r.image == options.image && r.cmd == options.command && r.workingDir == options.workdir
    ensures r.networkDisabled <==> config.hostNetwork != Some(true)
    ensures r.memory == ParseMemoryLimit(config.memoryLimit) && !r.autoRemove
    ensures r.env.None? <==> options.env.None?
  {
    ContainerOptions(options.image, options.command,
                     match options.env case None => None case Some(env) => Some(EnvLines(env)),
                     options.workdir, !(config.hostNetwork == Some(true)),
                     ParseMemoryLimit(config.memoryLimit), false)
  }

  /** Every environment entry is passed on, in order, and can be read back when its key has no `=`. */
  lemma EnvPassedInOrder(config: ExecutorConfig, options: ExecuteOptions, i: nat)
    requires options.env.Some? && i < |options.env.value|
    requires '=' !in options.env.value[i].0
    ensures var r := ContainerOptionsOf(config, options);
      r.env.Some? && |r.env.value| == |options.env.value| &&
      SplitEnvLine(r.env.value[i]) == Some(options.env.value[i])
  {
    EnvLineRoundTrip(options.env.value[i].0, options.env.value[i].1);
  }

  // ---------------------------------------------------------------------------------
  // Running containers.
  // ---------------------------------------------------------------------------------

  /** A created container. */
  type ContainerId = nat

  /** How a started container's run ends. */
  datatype RunEnd =
    | Exited(statusCode: int, logs: string)   // `wait` then `logs` succeed
    | Failed(message: string)                  // `start`, `wait` or `logs` rejects
    | TimedOut                                 // the timeout fires first

  /** `ExecutionResult`. */
  datatype ExecutionResult = ExecutionResult(stdout: string, stderr: string, exitCode: int, durationMs: nat)

  /** What `execute` returns or throws once the run has ended. */
  function Outcome(end: RunEnd, durationMs: nat): (r: Result<ExecutionResult>)
    ensures r.Ok? <==> end.Exited?
    ensures end.TimedOut? ==> r == Err(TimeoutMessage)
    ensures end.Exited? ==> r.value.stdout == end.logs && r.value.stderr == "" && r.value.exitCode == end.statusCode
  {
    match end
    case Exited(code, logs) => Ok(ExecutionResult(logs, "", code, durationMs))
    case Failed(message) => Err(message)
    case TimedOut => Err(TimeoutMessage)
  }

  /** `Set.add`: insertion order, no duplicates. */
  function Added(active: seq<ContainerId>, c: ContainerId): (r: seq<ContainerId>)
    ensures c in r && forall d :: d in active ==> d in r
  {
    if c in active then active else active + [c]
  }

  /** `Set.delete`. */
  function Removed(active: seq<ContainerId>, c: ContainerId): (r: seq<ContainerId>)
    ensures forall d :: d in r <==> d in active && d != c
  {
    if active == [] then []
    else (if active[0] == c then [] else [active[0]]) + Removed(active[1..], c)
  }

  ghost predicate Distinct(s: seq<ContainerId>)
  {
    forall i, j :: 0 <= i < j < |s| ==> s[i] != s[j]
  }

  /** Adding then deleting a container that was not running leaves the set as it was. */
  lemma {:induction false} AddThenRemove(active: seq<ContainerId>, c: ContainerId)
    requires c !in active
    ensures Removed(Added(active, c), c) == active
  {
    RemovedAbsent(active, c);
    RemovedAppend(active, [c], c);
    assert Removed([c], c) == [] + Removed([], c);
  }

  lemma {:induction false} RemovedAbsent(active: seq<ContainerId>, c: ContainerId)
    requires c !in active
    ensures Removed(active, c) == active
  {
    if active != [] {
      RemovedAbsent(active[1..], c);
      assert [active[0]] + active[1..] == active;
    }
  }

  lemma {:induction false} RemovedAppend(a: seq<ContainerId>, b: seq<ContainerId>, c: ContainerId)
    ensures Removed(a + b, c) == Removed(a, c) + Removed(b, c)
  {
    if a == [] {
      assert a + b == b;
    } else {
      assert (a + b)[0] == a[0] && (a + b)[1..] == a[1..] + b;
      RemovedAppend(a[1..], b, c);
    }
  }

  lemma {:induction false} RemovedDistinct(active: seq<ContainerId>, c: ContainerId)
    requires Distinct(active)
    ensures Distinct(Removed(active, c))
  {
    if active != [] {
      RemovedDistinct(active[1..], c);
      var rest := Removed(active[1..], c);
      var r := Removed(active, c);
      assert active[0] !in active[1..] by {
        forall i | 0 <= i < |active| - 1 ensures active[1..][i] != active[0] {
          assert active[1..][i] == active[i + 1];
        }
      }
      if active[0] != c {
        assert r == [active[0]] + rest;
        forall i, j | 0 <= i < j < |r| ensures r[i] != r[j] {
          assert r[j] == rest[j - 1] && rest[j - 1] in rest;
          if i > 0 {
            assert r[i] == rest[i - 1];
          }
        }
      } else {
        assert r == [] + rest;
        assert r == rest;
      }
    }
  }

  /** The executor object. */
  class DockerExecutor {
    const config: ExecutorConfig
    /** `activeContainers`, in insertion order. */
    var active: seq<ContainerId>
    /** Every forced removal, in order. */
    var removedLog: seq<ContainerId>

    ghost predicate Valid()
      reads this
    {
      Distinct(active)
    }

    constructor (config: ExecutorConfig)
      ensures Valid() && this.config == config && active == [] && removedLog == []
    {
      this.config := config;
      active := [];
      removedLog := [];
    }

    /**
     * The first half of `execute`: `container` is what creation returned; it is created
     * with these options and joins the active set.
     */
    method Create(options: ExecuteOptions, container: ContainerId) returns (created: ContainerOptions)
      requires Valid()
      modifies this
      ensures Valid()
      ensures created == ContainerOptionsOf(config, options)
      ensures active == Added(old(active), container) && removedLog == old(removedLog)
    {
      var memory := ParseMemoryLimit(config.memoryLimit);
      var env := if options.env.Some? then Some(EnvLines(options.env.value)) else None;
      created := ContainerOptions(options.image, options.command, env, options.workdir,
                                  !(config.hostNetwork == Some(true)), memory, false);
      if container !in active {
        active := active + [container];
      }
    }

    /**
     * The second half of `execute`, however the run ended (the `finally` block): the
     * container leaves the active set and is removed by force.
     */
    method Finish(container: ContainerId, end: RunEnd, durationMs: nat) returns (r: Result<ExecutionResult>)
      requires Valid()
      modifies this
      ensures Valid()
      ensures r == Outcome(end, durationMs)
      ensures active == Removed(old(active), container) && container !in active
      ensures removedLog == old(removedLog) + [container]
    {
      RemovedDistinct(active, container);
      active := Removed(active, container);
      removedLog := removedLog + [container];
      r := Outcome(end, durationMs);
    }

    /** `execute` when nothing else happens during the run. */
    method Execute(options: ExecuteOptions, container: ContainerId, end: RunEnd, durationMs: nat)
      returns (created: ContainerOptions, r: Result<ExecutionResult>)
      requires Valid() && container !in active
      modifies this
      ensures Valid()
      ensures created == ContainerOptionsOf(config, options) && r == Outcome(end, durationMs)
      ensures active == old(active) && removedLog == old(removedLog) + [container]
    {
      created := Create(options, container);
      r := Finish(container, end, durationMs);
      AddThenRemove(old(active), container);
    }

    /** `panicKill`: every active container is removed by force, then the set is cleared. */
    method PanicKill()
      requires Valid()
      modifies this
      ensures Valid()
      ensures active == [] && removedLog == old(removedLog) + old(active)
    {
      var i := 0;
      while i < |active|
        invariant 0 <= i <= |active| && active == old(active)
        invariant removedLog == old(removedLog) + active[..i]
      {
        removedLog := removedLog + [active[i]];
        assert active[..i + 1] == active[..i] + [active[i]];
        i := i + 1;
      }
      assert active[..i] == active;
      active := [];
    }
  }
}
