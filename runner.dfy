/**
 * The argument vector `run_app` hands to `docker` (src/runner.rs). The
 * command builder is modelled as a class whose argument list grows one call
 * at a time; spawning the container is not part of this model.
 */
module Runner {
  import opened Common
  import opened Config

  /** `tokio::process::Command` as far as `run_app` uses it: a program and the arguments appended so far. */
  class Command {
    const program: string
    var args: seq<string>

    constructor (program: string)
      ensures this.program == program && args == []
    {
      this.program := program;
      args := [];
    }

    /** `Command::arg`. */
    method Arg(a: string)
      modifies this
      ensures args == old(args) + [a]
    {
      args := args + [a];
    }

    /** `Command::args`. */
    method Args(xs: seq<string>)
      modifies this
      ensures args == old(args) + xs
    {
      args := args + xs;
    }
  }

  /** `order` lists the keys of `m` once each: the order a `HashMap` happens to iterate in, which the source leaves unspecified. */
  ghost predicate IterationOrder(order: seq<string>, m: map<string, string>) {
    (forall k :: k in m <==> k in order) &&
    (forall i, j :: 0 <= i < j < |order| ==> order[i] != order[j])
  }

  /** Each item preceded by `flag`: `[flag, xs[0], flag, xs[1], ...]`. */
  function Flagged(flag: string, xs: seq<string>): (r: seq<string>)
    ensures |r| == 2 * |xs|
  {
    if xs == [] then [] else [flag, xs[0]] + Flagged(flag, xs[1..])
  }

  /** The `key=value` texts of the entries of `m`, in the order `order` visits its keys. */
  function Assignments(m: map<string, string>, order: seq<string>): (r: seq<string>)
    requires forall k :: k in order ==> k in m
    ensures |r| == |order|
  {
    seq(|order|, i requires 0 <= i < |order| => order[i] + "=" + m[order[i]])
  }

  /** The environment assignments `run_app` passes, or none when the config has no environments. */
  function EnvAssignments(c: AppConfig, order: seq<string>): seq<string>
    requires c.environments.Some? ==> IterationOrder(order, c.environments.value)
  {
    match c.environments
    case Some(m) => Assignments(m, order)
    case None => []
  }

  /** The options `run_app` always passes between the per-entry options and the image. */
  const FixedOptions: seq<string> := ["--network", "host", "-it", "--rm"]

  /** "run" and the per-entry options: the environment assignments `envs`, then volumes, then added capabilities. */
  function EntryOptions(envs: seq<string>, c: AppConfig): seq<string> {
    ["run"]
    + Flagged("-e", envs)
    + Flagged("-v", c.volumes.GetOr([]))
    + Flagged("--cap-add", c.capAdd.GetOr([]))
  }

  /** The argument vector for the environment assignments `envs` and the rest of the config. */
  function Argv(envs: seq<string>, c: AppConfig): seq<string> {
    EntryOptions(envs, c) + FixedOptions + [c.image] + c.args.GetOr([])
  }

  /** The complete `docker` argument vector for the application container. */
  function DockerArgs(c: AppConfig, order: seq<string>): seq<string>
    requires c.environments.Some? ==> IterationOrder(order, c.environments.value)
  {
    Argv(EnvAssignments(c, order), c)
  }

  /** Appends `flag, x` for every item `x`, in order. */
  method ArgEach(cmd: Command, flag: string, xs: seq<string>)
    modifies cmd
    ensures cmd.args == old(cmd.args) + Flagged(flag, xs)
  {
    ghost var before := cmd.args;
    for i := 0 to |xs|
      invariant cmd.args == before + Flagged(flag, xs[..i])
    {
      FlaggedSnoc(flag, xs[..i], xs[i]);
      assert xs[..i + 1] == xs[..i] + [xs[i]];
      cmd.Arg(flag);
      cmd.Arg(xs[i]);
    }
    assert xs[..|xs|] == xs;
  }

  /** Appends `-e key=value` for every environment entry, visiting the keys in `order`. */
  method ArgEnvironments(cmd: Command, envs: map<string, string>, order: seq<string>)
    requires IterationOrder(order, envs)
    modifies cmd
    ensures cmd.args == old(cmd.args) + Flagged("-e", Assignments(envs, order))
  {
    ghost var before := cmd.args;
    ghost var all := Assignments(envs, order);
    for i := 0 to |order|
      invariant cmd.args == before + Flagged("-e", all[..i])
    {
      var key := order[i];
      var value := envs[key];
      FlaggedSnoc("-e", all[..i], key + "=" + value);
      assert all[..i + 1] == all[..i] + [key + "=" + value];
      cmd.Arg("-e");
      cmd.Arg(key + "=" + value);
    }
    assert all[..|order|] == all;
  }

  /** `run_app` up to its `spawn`: the program and the arguments it is given, built one `arg` call at a time. */
  method AppCommand(c: AppConfig, order: seq<string>) returns (program: string, argv: seq<string>)
    requires c.environments.Some? ==> IterationOrder(order, c.environments.value)
    ensures program == "docker"
    ensures argv == DockerArgs(c, order)
  {
    var cmd := new Command("docker");
    cmd.Arg("run");
    ghost var envs := EnvAssignments(c, order);
    if c.environments.Some? {
      ArgEnvironments(cmd, c.environments.value, order);
    }
    assert cmd.args == ["run"] + Flagged("-e", envs);
    if c.volumes.Some? {
      ArgEach(cmd, "-v", c.volumes.value);
    }
    assert cmd.args == ["run"] + Flagged("-e", envs) + Flagged("-v", c.volumes.GetOr([]));
    if c.capAdd.Some? {
      ArgEach(cmd, "--cap-add", c.capAdd.value);
    }
    assert cmd.args == EntryOptions(envs, c);
    cmd.Args(FixedOptions);
    cmd.Arg(c.image);
    if c.args.Some? {
      cmd.Args(c.args.value);
    }
    program, argv := cmd.program, cmd.args;
  }

  lemma {:induction false} FlaggedSnoc(flag: string, xs: seq<string>, x: string)
    ensures Flagged(flag, xs + [x]) == Flagged(flag, xs) + [flag, x]
  {
    if xs == [] {
      assert xs + [x] == [x];
    } else {
      assert (xs + [x])[1..] == xs[1..] + [x];
      FlaggedSnoc(flag, xs[1..], x);
    }
  }

  /** `Flagged` interleaves: twice as long, with the flag at even and the items, in order, at odd positions. */
  lemma {:induction false} FlaggedAt(flag: string, xs: seq<string>)
    ensures forall i :: 0 <= i < |xs| ==> Flagged(flag, xs)[2 * i] == flag && Flagged(flag, xs)[2 * i + 1] == xs[i]
  {
    if xs != [] {
      FlaggedAt(flag, xs[1..]);
      forall i | 0 < i < |xs|
        ensures Flagged(flag, xs)[2 * i] == flag && Flagged(flag, xs)[2 * i + 1] == xs[i]
      {
        assert Flagged(flag, xs)[2 * i] == Flagged(flag, xs[1..])[2 * (i - 1)];
        assert Flagged(flag, xs)[2 * i + 1] == Flagged(flag, xs[1..])[2 * (i - 1) + 1];
      }
    }
  }

  /** Where the volume options begin: after "run" and the environment pairs. */
  function VolumeStart(envs: seq<string>): nat {
    1 + 2 * |envs|
  }

  /** Where the capability options begin: after the volume pairs. */
  function CapStart(envs: seq<string>, c: AppConfig): nat {
    VolumeStart(envs) + 2 * |c.volumes.GetOr([])|
  }

  /** The argument vector is "run", two words per environment entry, volume and capability, five fixed words and the user arguments. */
  lemma ArgvLength(envs: seq<string>, c: AppConfig)
    ensures |EntryOptions(envs, c)| == CapStart(envs, c) + 2 * |c.capAdd.GetOr([])|
    ensures |Argv(envs, c)| ==
      1 + 2 * |envs| + 2 * |c.volumes.GetOr([])| + 2 * |c.capAdd.GetOr([])| + 5 + |c.args.GetOr([])|
    ensures Argv(envs, c)[0] == "run"
  {
  }

  /** Indexing the middle part of a concatenation. */
  lemma IndexMiddle(front: seq<string>, mid: seq<string>, back: seq<string>, i: nat)
    requires i < |mid|
    ensures (front + mid + back)[|front| + i] == mid[i]
  {
  }

  /** Each environment assignment contributes "-e" followed by it, in order, right after "run". */
  lemma ArgvEnvironments(envs: seq<string>, c: AppConfig)
    ensures forall i :: 0 <= i < |envs| ==> Argv(envs, c)[1 + 2 * i] == "-e" && Argv(envs, c)[2 + 2 * i] == envs[i]
  {
    FlaggedAt("-e", envs);
    var e := Flagged("-e", envs);
    var rest := Flagged("-v", c.volumes.GetOr([])) + Flagged("--cap-add", c.capAdd.GetOr([]))
      + FixedOptions + [c.image] + c.args.GetOr([]);
    assert Argv(envs, c) == ["run"] + e + rest;
    forall i | 0 <= i < |envs|
      ensures Argv(envs, c)[1 + 2 * i] == "-e" && Argv(envs, c)[2 + 2 * i] == envs[i]
    {
      IndexMiddle(["run"], e, rest, 2 * i);
      IndexMiddle(["run"], e, rest, 2 * i + 1);
    }
  }

  /** Each volume contributes "-v" followed by the volume, in list order, after the environment pairs. */
  lemma ArgvVolumes(envs: seq<string>, c: AppConfig)
    ensures forall i :: 0 <= i < |c.volumes.GetOr([])| ==>
      Argv(envs, c)[VolumeStart(envs) + 2 * i] == "-v" &&
      Argv(envs, c)[VolumeStart(envs) + 2 * i + 1] == c.volumes.GetOr([])[i]
  {
    var volumes := c.volumes.GetOr([]);
    FlaggedAt("-v", volumes);
    var front := ["run"] + Flagged("-e", envs);
    var v := Flagged("-v", volumes);
    var rest := Flagged("--cap-add", c.capAdd.GetOr([])) + FixedOptions + [c.image] + c.args.GetOr([]);
    assert Argv(envs, c) == front + v + rest;
    forall i | 0 <= i < |volumes|
      ensures Argv(envs, c)[|front| + 2 * i] == "-v" && Argv(envs, c)[|front| + 2 * i + 1] == volumes[i]
    {
      IndexMiddle(front, v, rest, 2 * i);
      IndexMiddle(front, v, rest, 2 * i + 1);
    }
  }

  /** Each added capability contributes "--cap-add" followed by it, in list order, after the volume pairs. */
  lemma ArgvCapabilities(envs: seq<string>, c: AppConfig)
    ensures forall i :: 0 <= i < |c.capAdd.GetOr([])| ==>
      Argv(envs, c)[CapStart(envs, c) + 2 * i] == "--cap-add" &&
      Argv(envs, c)[CapStart(envs, c) + 2 * i + 1] == c.capAdd.GetOr([])[i]
  {
    var caps := c.capAdd.GetOr([]);
    FlaggedAt("--cap-add", caps);
    var front := ["run"] + Flagged("-e", envs) + Flagged("-v", c.volumes.GetOr([]));
    var k := Flagged("--cap-add", caps);
    var rest := FixedOptions + [c.image] + c.args.GetOr([]);
    assert Argv(envs, c) == front + k + rest;
    forall i | 0 <= i < |caps|
      ensures Argv(envs, c)[|front| + 2 * i] == "--cap-add" && Argv(envs, c)[|front| + 2 * i + 1] == caps[i]
    {
      IndexMiddle(front, k, rest, 2 * i);
      IndexMiddle(front, k, rest, 2 * i + 1);
    }
  }

  /** Whatever the config says, the per-entry options are followed by "--network host -it --rm", the image, and then the user arguments verbatim as the suffix. */
  lemma ArgvTail(envs: seq<string>, c: AppConfig)
    ensures var f := |EntryOptions(envs, c)|;
      var argv := Argv(envs, c);
      && |argv| == f + 5 + |c.args.GetOr([])|
      && argv[f..f + 4] == ["--network", "host", "-it", "--rm"]
      && argv[f + 4] == c.image
      && argv[f + 5..] == c.args.GetOr([])
  {
    var f := |EntryOptions(envs, c)|;
    var argv := Argv(envs, c);
    assert argv == EntryOptions(envs, c) + (FixedOptions + [c.image]) + c.args.GetOr([]);
    assert argv[f..f + 4] == FixedOptions;
  }

  /** Every environment entry of the config appears as the pair "-e", "key=value". */
  lemma EveryEnvironmentEntryPassed(c: AppConfig, order: seq<string>, key: string)
    requires c.environments.Some? && IterationOrder(order, c.environments.value)
    requires key in c.environments.value
    ensures exists i :: (0 <= i < |order| &&
      DockerArgs(c, order)[1 + 2 * i] == "-e" &&
      DockerArgs(c, order)[2 + 2 * i] == key + "=" + c.environments.value[key])
  {
    var envs := EnvAssignments(c, order);
    ArgvEnvironments(envs, c);
    var i :| 0 <= i < |order| && order[i] == key;
    assert envs[i] == key + "=" + c.environments.value[key];
    assert DockerArgs(c, order)[2 + 2 * i] == envs[i];
  }

  /** The published ports and the network mode of the config do not reach the argument vector. */
  lemma PortsAndNetworkModeIgnored(c: AppConfig, order: seq<string>, ports: Option<seq<string>>, mode: Option<NetworkMode>)
    requires c.environments.Some? ==> IterationOrder(order, c.environments.value)
    ensures DockerArgs(c.(ports := ports, networkMode := mode), order) == DockerArgs(c, order)
  {
  }
}
