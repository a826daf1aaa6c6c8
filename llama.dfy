/** `LlamaServer`: the supervisor of one llama.cpp server process. It builds
    the launch command, derives the request URLs from the port, checks
    readiness by polling the health endpoint, and starts and stops the
    process it owns. */
module Llama {
  import opened Wrappers
  import Decimal
  import Paths
  import LlamaConfig
  import opened Polling

  // ---------------------------------------------------------------------
  // Launch command

  /** The extra arguments that offload the model to the GPU. */
  const GpuFlags: seq<string> := ["-ngl", "1000"]

  /** `[llama_cpp_repo_path, "-m", model_path]`, followed by `-ngl 1000` when `use_gpu`. */
  function LaunchCommand(executable: string, model: string, useGpu: bool): seq<string> {
    [executable, "-m", model] + (if useGpu then GpuFlags else [])
  }

  /** Reads a launch command back into executable, model and GPU flag. */
  function ParseLaunchCommand(command: seq<string>): Option<(string, string, bool)> {
    if |command| == 3 && command[1] == "-m" then Some((command[0], command[2], false))
    else if |command| == 5 && command[1] == "-m" && command[3..] == GpuFlags then Some((command[0], command[2], true))
    else None
  }

  /** The command has length 5 with the GPU flags last, or length 3 without them. */
  lemma LaunchCommandShape(executable: string, model: string, useGpu: bool)
    ensures var c := LaunchCommand(executable, model, useGpu);
      && |c| == (if useGpu then 5 else 3)
      && c[..3] == [executable, "-m", model]
      && (useGpu ==> c[3] == "-ngl" && c[4] == "1000")
  {
  }

  /** A launch command is built exactly from the parameters it reads back as. */
  lemma LaunchCommandParse(executable: string, model: string, useGpu: bool, command: seq<string>)
    ensures ParseLaunchCommand(LaunchCommand(executable, model, useGpu)) == Some((executable, model, useGpu))
    ensures ParseLaunchCommand(command) == Some((executable, model, useGpu)) ==>
      command == LaunchCommand(executable, model, useGpu)
  {
  }

  // ---------------------------------------------------------------------
  // URLs

  const UrlPrefix: string := "http://localhost:"

  /** `f"http://localhost:{port}"`. */
  function BaseUrl(port: int): string {
    UrlPrefix + Decimal.IntToDecimal(port)
  }

  /** `f"{base_url}/completion"`. */
  function CompletionUrl(port: int): string {
    BaseUrl(port) + "/completion"
  }

  /** `f"{base_url}/health"`. */
  function HealthCheckUrl(port: int): string {
    BaseUrl(port) + "/health"
  }

  /** The port a base URL names, if it is one. */
  function PortOfBaseUrl(url: string): Option<int> {
    if |UrlPrefix| <= |url| && url[..|UrlPrefix|] == UrlPrefix then Decimal.ParseInt(url[|UrlPrefix|..])
    else None
  }

  /** The base URL names its port, so servers on different ports have different URLs. */
  lemma BaseUrlNamesPort(port: int, other: int)
    ensures PortOfBaseUrl(BaseUrl(port)) == Some(port)
    ensures BaseUrl(port) == BaseUrl(other) ==> port == other
  {
    var url := BaseUrl(port);
    assert url[..|UrlPrefix|] == UrlPrefix && url[|UrlPrefix|..] == Decimal.IntToDecimal(port);
    Decimal.ParseIntToDecimal(port);
    if BaseUrl(port) == BaseUrl(other) {
      var url' := BaseUrl(other);
      assert url'[|UrlPrefix|..] == Decimal.IntToDecimal(other);
      Decimal.IntToDecimalInjective(port, other);
    }
  }

  /** The endpoint URLs extend the base URL, determine the port, and never coincide. */
  lemma EndpointUrls(port: int, other: int)
    ensures CompletionUrl(port)[..|BaseUrl(port)|] == BaseUrl(port)
    ensures HealthCheckUrl(port)[..|BaseUrl(port)|] == BaseUrl(port)
    ensures HealthCheckUrl(port) != CompletionUrl(other)
    ensures HealthCheckUrl(port) == HealthCheckUrl(other) ==> port == other
    ensures CompletionUrl(port) == CompletionUrl(other) ==> port == other
  {
    var h, c := HealthCheckUrl(port), CompletionUrl(other);
    assert h[|h| - 1] == 'h' && c[|c| - 1] == 'n';
    if HealthCheckUrl(port) == HealthCheckUrl(other) {
      assert BaseUrl(port) == HealthCheckUrl(port)[..|HealthCheckUrl(port)| - 7];
      assert BaseUrl(other) == HealthCheckUrl(other)[..|HealthCheckUrl(other)| - 7];
      BaseUrlNamesPort(port, other);
    }
    if CompletionUrl(port) == CompletionUrl(other) {
      assert BaseUrl(port) == CompletionUrl(port)[..|CompletionUrl(port)| - 11];
      assert BaseUrl(other) == CompletionUrl(other)[..|CompletionUrl(other)| - 11];
      BaseUrlNamesPort(port, other);
    }
  }

  // ---------------------------------------------------------------------
  // The supervisor

  /** An operating-system process started by `subprocess.Popen`. */
  datatype Process = Process(pid: nat)

  /** The readiness bounds `start` uses: `is_running`'s defaults. */
  const DefaultMaxConnectionAttempts: int := 10
  const DefaultMaxWaitForModelLoading: int := 60

  datatype StartResult = Started | ServerStartupError(message: string)

  const StartupFailureMessage: string := "Failed to startup! Check the error log messages"

  class LlamaServer {
    const llamaCppRepoPath: Paths.FsPath
    const modelPath: Paths.FsPath
    const port: int
    const useGpu: bool
    var command: seq<string>
    var process: Option<Process>
    /** The processes this server started and has not yet terminated and reaped. */
    ghost var live: set<Process>

    ghost predicate Valid()
      reads this
    {
      process.Some? ==> process.value in live
    }

    /** Started processes that the server no longer holds, so that nothing will stop them. */
    ghost function Orphans(): set<Process>
      reads this
    {
      if process.Some? then live - {process.value} else live
    }

    /** `LlamaServer.__init__`: no process yet, and the command fixed from the paths and GPU flag. */
    constructor (llamaCppRepoPath: Paths.FsPath, modelPath: Paths.FsPath, port: int, useGpu: bool)
      ensures this.llamaCppRepoPath == llamaCppRepoPath && this.modelPath == modelPath
      ensures this.port == port && this.useGpu == useGpu
      ensures process == None && live == {} && Valid()
      ensures command == LaunchCommand(Paths.Render(llamaCppRepoPath), Paths.Render(modelPath), useGpu)
    {
      this.llamaCppRepoPath := llamaCppRepoPath;
      this.modelPath := modelPath;
      this.port := port;
      this.process := None;
      this.useGpu := useGpu;
      this.live := {};
      command := [Paths.Render(llamaCppRepoPath), "-m"] + [Paths.Render(modelPath)];
      if useGpu {
        command := command + GpuFlags;
      }
    }

    /** `LlamaServer.from_config`: the executable is `server` inside the checkout. */
    static method FromConfig(config: LlamaConfig.LlamaServerConfig) returns (server: LlamaServer)
      ensures fresh(server) && server.Valid()
      ensures server.llamaCppRepoPath == Paths.ServerExecutable(config.llamaCppRepoPath)
      ensures server.modelPath == Paths.ParsePath(config.modelPath)
      ensures server.port == config.port && server.useGpu == config.useGpu
      ensures server.process == None && server.live == {}
      ensures server.command == LaunchCommand(
        Paths.Render(Paths.ServerExecutable(config.llamaCppRepoPath)),
        Paths.Render(Paths.ParsePath(config.modelPath)),
        config.useGpu)
    {
      server := new LlamaServer(
        Paths.ServerExecutable(config.llamaCppRepoPath),
        Paths.ParsePath(config.modelPath),
        config.port,
        config.useGpu);
    }

    /** `LlamaServer.is_running`: polls the health endpoint, with `health`
        answering the requests in order. Returns the boolean result together
        with the number of requests issued and the sleeps taken. */
    method IsRunning(health: HealthOracle, maxConnectionAttempts: int, maxWaitTimeForModelLoading: int)
      returns (running: bool, requests: nat, shortSleeps: nat, loadingSleeps: nat)
      ensures var v := Check(process.Some?, health, maxConnectionAttempts, maxWaitTimeForModelLoading);
        running == v.ready && requests == v.requests
        && shortSleeps == v.shortSleeps && loadingSleeps == v.loadingSleeps
      ensures process.None? ==> !running && requests == 0
    {
      running, requests, shortSleeps, loadingSleeps := false, 0, 0, 0;
      if process.None? {
        return;
      }
      ghost var v := Readiness(health, maxConnectionAttempts, maxWaitTimeForModelLoading);
      var curAttempt: nat := 0;
      var modelLoadingTime: nat := 0;
      while true
        invariant Poll(health, maxConnectionAttempts, maxWaitTimeForModelLoading, requests, curAttempt, modelLoadingTime) == v
        invariant shortSleeps == curAttempt && loadingSleeps == modelLoadingTime
        decreases Budget(maxConnectionAttempts, maxWaitTimeForModelLoading, curAttempt, modelLoadingTime)
      {
        var response := health(requests);
        requests := requests + 1;
        match response {
          case Status(code) =>
            if code == HttpServiceUnavailable {
              if modelLoadingTime > maxWaitTimeForModelLoading {
                return;
              }
              // one second of waiting for the model to load
              loadingSleeps := loadingSleeps + 1;
              modelLoadingTime := modelLoadingTime + 1;
              continue;
            }
            running := code == HttpOk;
            return;
          case ConnectionError =>
            curAttempt := curAttempt + 1;
            if curAttempt > maxConnectionAttempts {
              return;
            }
        }
        // the short pause before the next connection attempt
        shortSleeps := shortSleeps + 1;
      }
    }

    /** `LlamaServer.stop`: terminates and reaps the owned process and clears
        the field. With no process the source fails (it calls `terminate` on
        `None`); that is `ok == false`, and nothing changes. */
    method Stop() returns (ok: bool)
      requires Valid()
      modifies this
      ensures Valid()
      ensures ok == old(process).Some?
      ensures process == None
      ensures live == if old(process).Some? then old(live) - {old(process).value} else old(live)
      ensures Orphans() == old(Orphans())
      ensures command == old(command)
    {
      if process.None? {
        return false;
      }
      // the process is terminated and reaped
      live := live - {process.value};
      process := None;
      ok := true;
    }

    /** `LlamaServer.start`: `spawned` is the process `Popen` created. The
        readiness check runs with its default bounds; when it fails the new
        process is stopped and the start fails. */
    method Start(spawned: Process, health: HealthOracle) returns (r: StartResult)
      requires Valid()
      requires spawned !in live
      modifies this
      ensures Valid()
      ensures r.Started? == Readiness(health, DefaultMaxConnectionAttempts, DefaultMaxWaitForModelLoading).ready
      ensures r.Started? ==> process == Some(spawned) && live == old(live) + {spawned}
      ensures !r.Started? ==> r == ServerStartupError(StartupFailureMessage) && process == None && live == old(live)
      ensures Orphans() == old(live)
      ensures command == old(command)
    {
      process := Some(spawned);
      live := live + {spawned};
      var running, requests, shortSleeps, loadingSleeps := IsRunning(health, DefaultMaxConnectionAttempts, DefaultMaxWaitForModelLoading);
      if !running {
        var stopped := Stop();
        return ServerStartupError(StartupFailureMessage);
      }
      r := Started;
    }
  }
}
