// src/backfill.rs: from a configuration to a run.
module BackfillSetup {
  import opened Base
  import opened Decode
  import opened ChunkRanges
  import opened ChunkTask
  import opened Backfill
  import opened BackfillData
  import opened BackfillProgress

  datatype Config = Config(startBlock: u64, endBlock: u64, chunkSize: u64, parallelism: nat, rate: nat)

  datatype ConfigError = StartAfterEnd | NoChunkSize | NoParallelism | NoRate

  datatype Setup = Rejected(error: ConfigError) | Overflow | Ready(env: Env)

  // A configuration that passes the four checks and whose chunks can be computed.
  predicate Runnable(config: Config) {
    && config.startBlock <= config.endBlock
    && config.chunkSize > 0
    && config.parallelism > 0
    && config.rate > 0
    && config.startBlock + ChunkCount(config.startBlock, config.endBlock, config.chunkSize) * config.chunkSize
       <= U64_MAX
  }

  function EnvOf(config: Config, chain: seq<ChainLog>, directory: map<FileName, ParquetFile>): Env
    requires Runnable(config)
  {
    Env(config.startBlock, config.endBlock, Chunks(config.startBlock, config.endBlock, config.chunkSize),
        config.parallelism, config.rate, chain, directory)
  }

  // The head of `run`.  The chain is the one the provider will answer from, the
  // directory is what the output directory holds; `run` looks at neither.
  method SetUp(config: Config, chain: seq<ChainLog>, directory: map<FileName, ParquetFile>)
    returns (setup: Setup)
    ensures setup.Ready? <==> Runnable(config)
    ensures setup.Ready? ==>
              && setup.env == EnvOf(config, chain, directory)
              && setup.env.start == config.startBlock
              && setup.env.end == config.endBlock
              && setup.env.ranges == Chunks(config.startBlock, config.endBlock, config.chunkSize)
              && setup.env.parallelism == config.parallelism
              && setup.env.rate == config.rate
              && setup.env.chain == chain
              && setup.env.directory == directory
    ensures setup.Overflow? ==> config.startBlock <= config.endBlock && config.parallelism > 0 && config.rate > 0
    ensures setup == Rejected(StartAfterEnd) <==> config.startBlock > config.endBlock
    ensures setup == Rejected(NoChunkSize) <==> config.startBlock <= config.endBlock && config.chunkSize == 0
    ensures setup == Rejected(NoParallelism) <==>
              config.startBlock <= config.endBlock && config.chunkSize > 0 && config.parallelism == 0
    ensures setup == Rejected(NoRate) <==>
              && config.startBlock <= config.endBlock && config.chunkSize > 0
              && config.parallelism > 0 && config.rate == 0
  {
    if config.startBlock > config.endBlock {
      return Rejected(StartAfterEnd);
    }
    if config.chunkSize == 0 {
      return Rejected(NoChunkSize);
    }
    if config.parallelism == 0 {
      return Rejected(NoParallelism);
    }
    if config.rate == 0 {
      return Rejected(NoRate);
    }
    var ranges := ChunkRanges.ChunkRanges(config.startBlock, config.endBlock, config.chunkSize);
    if ranges.None? {
      return Overflow;
    }
    return Ready(Env(config.startBlock, config.endBlock, ranges.value, config.parallelism, config.rate,
                     chain, directory));
  }

  // What the checks are for: a run that is set up meets all that the theorems
  // about runs ask for, if the provider is honest about block numbers.
  lemma RunnableIsValid(config: Config, chain: seq<ChainLog>, directory: map<FileName, ParquetFile>)
    requires Runnable(config) && HonestBlocks(chain)
    ensures EnvOf(config, chain, directory).Valid()
  {
    hide HonestBlocks, Chunks, Partitions;
    ChunksPartition(config.startBlock, config.endBlock, config.chunkSize);
  }

  // The limits of a configuration, in every state of every run that it starts: at
  // most `parallelism` chunks are under way, and the fetches that have started are
  // at most the rate limit for each completed refill, and once more.
  lemma ConfiguredLimits(config: Config, chain: seq<ChainLog>, directory: map<FileName, ParquetFile>, steps: seq<Step>)
    requires Runnable(config) && HonestBlocks(chain) && IsRun(EnvOf(config, chain, directory), steps)
    ensures var phases := Exec(EnvOf(config, chain, directory), steps).phases;
            |set i | 0 <= i < |phases| && !phases[i].Waiting? && !phases[i].Done?| <= config.parallelism
    ensures Grants(steps) <= config.rate * (CompletedRefills(steps) + 1)
  {
    hide Exec, IsRun, Chunks, HonestBlocks, Grants, CompletedRefills;
    RunnableIsValid(config, chain, directory);
    Limits(EnvOf(config, chain, directory), steps);
  }

  lemma Limits(env: Env, steps: seq<Step>)
    requires env.Valid() && IsRun(env, steps)
    ensures var phases := Exec(env, steps).phases;
            |set i | 0 <= i < |phases| && !phases[i].Waiting? && !phases[i].Done?| <= env.parallelism
    ensures Grants(steps) <= env.rate * (CompletedRefills(steps) + 1)
  {
    hide *;
    BoundedFanOut(env, steps);
    FetchRate(env, steps, 0);
    NoneYet(steps);
  }

  lemma NoneYet(steps: seq<Step>)
    ensures Grants(steps[..0]) == 0 && CompletedRefills(steps[..0]) == 0
  {
  }

  // Two clean backfills of the same blocks leave the same rows of a type in the
  // same order: neither chunk size nor parallelism, nor rate limit, nor
  // the interleaving, nor the order of visiting the per-type maps matters.  Each
  // has its directory, which may hold anything but stale rows.
  lemma ConfigurationsAgree(a: Config, stepsA: seq<Step>, dirA: map<FileName, ParquetFile>,
                            b: Config, stepsB: seq<Step>, dirB: map<FileName, ParquetFile>,
                            chain: seq<ChainLog>, t: EventType)
    requires Runnable(a) && Runnable(b) && HonestBlocks(chain)
    requires a.startBlock == b.startBlock && a.endBlock == b.endBlock
    requires NoStaleRows(EnvOf(a, chain, dirA), t) && NoStaleRows(EnvOf(b, chain, dirB), t)
    requires IsRun(EnvOf(a, chain, dirA), stepsA)
    requires Clean(EnvOf(a, chain, dirA), Exec(EnvOf(a, chain, dirA), stepsA), t)
    requires IsRun(EnvOf(b, chain, dirB), stepsB)
    requires Clean(EnvOf(b, chain, dirB), Exec(EnvOf(b, chain, dirB), stepsB), t)
    ensures DataOnDisk(EnvOf(a, chain, dirA), Exec(EnvOf(a, chain, dirA), stepsA), t)
            == DataOnDisk(EnvOf(b, chain, dirB), Exec(EnvOf(b, chain, dirB), stepsB), t)
  {
    hide Exec, IsRun, Clean, DataOnDisk, Chunks, HonestBlocks, ChunkCount, NoStaleRows;
    RunnableIsValid(a, chain, dirA);
    RunnableIsValid(b, chain, dirB);
    SettingsDoNotMatter(EnvOf(a, chain, dirA), stepsA, EnvOf(b, chain, dirB), stepsB, t);
  }
}
