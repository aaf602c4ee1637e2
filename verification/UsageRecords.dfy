/** What a transcript is made of, as the usage parser reads it. */
module UsageRecords {
  import opened Options
  import opened Lines

  /** A timestamp. `hour` orders the hour buckets as their texts do; 0 stands for
      a stamp whose text names no hour. `ms` is None for a stamp no clock reads. */
  datatype Stamp = Missing | At(hour: nat, ms: Option<int>)

  function HourOf(stamp: Stamp): nat {
    if stamp.At? then stamp.hour else 0
  }

  function MsOf(stamp: Stamp): Option<int> {
    if stamp.At? then stamp.ms else None
  }

  datatype Interrupt = NoInterrupt | ByPerson | ForTool

  datatype Block =
    | Text(interrupt: Interrupt)
    | Failed(use: string)
    | Thinking
    | Call(id: string, name: string)

  /** The counters of one answer a record reports; each record repeats them, and the largest counts. */
  datatype Tokens = Tokens(input: int, output: int, cacheRead: int, cacheCreation: int,
                           cache1h: int, cache5m: int, iterations: int)

  const NO_TOKENS := Tokens(0, 0, 0, 0, 0, 0, 0)

  function Max(a: int, b: int): int {
    if a < b then b else a
  }

  function MaxTokens(a: Tokens, b: Tokens): Tokens {
    Tokens(Max(a.input, b.input), Max(a.output, b.output), Max(a.cacheRead, b.cacheRead),
           Max(a.cacheCreation, b.cacheCreation), Max(a.cache1h, b.cache1h),
           Max(a.cache5m, b.cache5m), Max(a.iterations, b.iterations))
  }

  function AddTokens(a: Tokens, b: Tokens): Tokens {
    Tokens(a.input + b.input, a.output + b.output, a.cacheRead + b.cacheRead,
           a.cacheCreation + b.cacheCreation, a.cache1h + b.cache1h,
           a.cache5m + b.cache5m, a.iterations + b.iterations)
  }

  datatype Usage = NoUsage | Usage(tokens: Tokens, speed: string, tier: string)

  datatype Record =
    | User(stamp: Stamp, agent: string, compact: bool, human: bool, blocks: seq<Block>)
    | Assistant(stamp: Stamp, agent: string, synthetic: bool, mid: string, model: string,
                usage: Usage, blocks: seq<Block>, attribution: string)
    | Other(stamp: Stamp)

  function HourAt(r: Record): nat {
    HourOf(r.stamp)
  }

  /** A record of an answer: what the rows and the calls are counted from. */
  predicate Answers(r: Record) {
    r.Assistant? && !r.synthetic && HourAt(r) > 0
  }

  /** A line of a transcript. */
  type Entry = Line<Record>
}
