/** Engine strength tiers: which Elo ratings are accepted, the weights file each
    one names, and the engine lifecycle calls a tier change makes. */
module EngineTiers {
  import opened ChessTypes

  const MIN_ELO := 1100
  const MAX_ELO := 1900
  const ELO_STEP := 100
  const DEFAULT_ELO := 1500
  /** The number of tiers between MIN_ELO and MAX_ELO in steps of ELO_STEP. */
  const TIER_COUNT := 9

  /** The rating check of set_engine_parameters. Python's `%` with a positive
      divisor agrees with Dafny's. */
  predicate ValidElo(elo: int)
  {
    !(elo < MIN_ELO || elo > MAX_ELO || elo % ELO_STEP != 0)
  }

  /** The rating of the i-th tier, counting from the weakest. */
  function TierElo(i: int): int
  {
    MIN_ELO + ELO_STEP * i
  }

  /** The accepted ratings are exactly the nine tiers 1100, 1200, ..., 1900. */
  lemma ValidEloIsTier(elo: int)
    ensures ValidElo(elo) <==> exists i :: 0 <= i < TIER_COUNT && elo == TierElo(i)
  {
    if ValidElo(elo) {
      var i := (elo - MIN_ELO) / ELO_STEP;
      assert elo == TierElo(i);
    }
  }

  // Decimal notation of a natural number, as Python's str() writes it.

  predicate IsDigit(c: char)
  {
    '0' <= c <= '9'
  }

  predicate AllDigits(s: string)
  {
    forall i :: 0 <= i < |s| ==> IsDigit(s[i])
  }

  function DigitChar(d: int): (c: char)
    requires 0 <= d < 10
    ensures IsDigit(c) && DigitValue(c) == d
  {
    ('0' as int + d) as char
  }

  function DigitValue(c: char): int
    requires IsDigit(c)
  {
    c as int - '0' as int
  }

  function DecimalString(n: nat): (s: string)
    ensures |s| >= 1 && AllDigits(s)
    ensures n < 10 <==> |s| == 1
    decreases n
  {
    if n < 10 then [DigitChar(n)] else DecimalString(n / 10) + [DigitChar(n % 10)]
  }

  function DecimalValue(s: string): nat
    requires AllDigits(s)
  {
    if s == [] then 0 else DecimalValue(s[..|s| - 1]) * 10 + DigitValue(s[|s| - 1])
  }

  lemma {:induction false} DecimalRoundTrip(n: nat)
    ensures DecimalValue(DecimalString(n)) == n
  {
    var s := DecimalString(n);
    if n >= 10 {
      DecimalRoundTrip(n / 10);
      assert s[..|s| - 1] == DecimalString(n / 10);
    }
  }

  // Weights files.

  const WEIGHTS_PREFIX := "maia-"
  const WEIGHTS_SUFFIX := ".pb.gz"
  const WEIGHTS_DIR := "/Volumes/nvme/PROJECTS/coding_projects/python_chess_gui/"

  /** The weights file of a tier: "maia-" + rating + ".pb.gz". */
  function WeightsName(elo: nat): (name: string)
    ensures |name| > |WEIGHTS_PREFIX| + |WEIGHTS_SUFFIX|
  {
    WEIGHTS_PREFIX + DecimalString(elo) + WEIGHTS_SUFFIX
  }

  /** Reads the tier back out of a weights file name. */
  function TierOfWeightsName(name: string): (r: Option<int>)
    ensures r.Some? ==> ValidElo(r.value)
  {
    var p, q := |WEIGHTS_PREFIX|, |WEIGHTS_SUFFIX|;
    if |name| > p + q && name[..p] == WEIGHTS_PREFIX && name[|name| - q..] == WEIGHTS_SUFFIX then
      var digits := name[p..|name| - q];
      if AllDigits(digits) && ValidElo(DecimalValue(digits)) then Some(DecimalValue(digits)) else None
    else
      None
  }

  lemma WeightsNameRoundTrip(elo: int)
    requires ValidElo(elo)
    ensures TierOfWeightsName(WeightsName(elo)) == Some(elo)
  {
    var name := WeightsName(elo);
    var p, q := |WEIGHTS_PREFIX|, |WEIGHTS_SUFFIX|;
    assert name[..p] == WEIGHTS_PREFIX;
    assert name[|name| - q..] == WEIGHTS_SUFFIX;
    assert name[p..|name| - q] == DecimalString(elo);
    DecimalRoundTrip(elo);
  }

  /** Different tiers load different weights. */
  lemma WeightsNameInjective(a: int, b: int)
    requires ValidElo(a) && ValidElo(b) && WeightsName(a) == WeightsName(b)
    ensures a == b
  {
    WeightsNameRoundTrip(a);
    WeightsNameRoundTrip(b);
  }

  // Engine handles.

  /** A running lc0 process, identified by the weights it was started with. */
  datatype Engine = Lc0(weightsPath: string)

  function EngineFor(elo: int): Engine
    requires ValidElo(elo)
  {
    Lc0(WEIGHTS_DIR + WeightsName(elo))
  }

  /** The tier an engine plays at, read from its weights path. */
  function TierOfEngine(engine: Engine): (r: Option<int>)
    ensures r.Some? ==> ValidElo(r.value)
  {
    var d := |WEIGHTS_DIR|;
    if |engine.weightsPath| >= d && engine.weightsPath[..d] == WEIGHTS_DIR then
      TierOfWeightsName(engine.weightsPath[d..])
    else
      None
  }

  lemma EngineForRoundTrip(elo: int)
    requires ValidElo(elo)
    ensures TierOfEngine(EngineFor(elo)) == Some(elo)
  {
    var path := EngineFor(elo).weightsPath;
    assert path[..|WEIGHTS_DIR|] == WEIGHTS_DIR;
    assert path[|WEIGHTS_DIR|..] == WeightsName(elo);
    WeightsNameRoundTrip(elo);
  }

  /** The engine the session starts with, whose weights path is written out in full. */
  const DEFAULT_ENGINE := Lc0("/Volumes/nvme/PROJECTS/coding_projects/python_chess_gui/maia-1500.pb.gz")

  lemma DefaultEngineIsDefaultTier()
    ensures ValidElo(DEFAULT_ELO) && DEFAULT_ENGINE == EngineFor(DEFAULT_ELO)
  {
    assert DecimalString(1) == "1";
    assert DecimalString(15) == "15";
    assert DecimalString(150) == "150";
    assert DecimalString(1500) == "1500";
  }

  /** The calls the viewer makes on the engine library. */
  datatype EngineCall = Quit(engine: Engine) | PopenUci(command: seq<string>) | ConfigureThreads(threads: int)

  function LaunchCommand(engine: Engine): seq<string>
  {
    ["lc0", "--weights=" + engine.weightsPath]
  }

  /** Starting an engine: launch lc0 on its weights, then limit it to one thread. */
  function StartCalls(engine: Engine): seq<EngineCall>
  {
    [PopenUci(LaunchCommand(engine)), ConfigureThreads(1)]
  }

  datatype TierError = InvalidElo(elo: int)

  /** What set_engine_parameters returns, with the engine calls it made. */
  datatype Reconfiguration = Reconfiguration(result: Result<Engine, TierError>, calls: seq<EngineCall>)

  /** Validates the rating first; only a valid one quits the old engine and
      starts one on that tier's weights. There is no fallback. */
  function SetEngineParameters(engine: Engine, elo: int): (r: Reconfiguration)
    ensures r.result.Ok? <==> ValidElo(elo)
    ensures r.result.Err? ==> r.calls == [] && r.result.error == InvalidElo(elo)
    ensures r.result.Ok? ==> r.result.value == EngineFor(elo) && TierOfEngine(r.result.value) == Some(elo)
    ensures r.result.Ok? ==> r.calls == [Quit(engine)] + StartCalls(r.result.value)
  {
    if elo < MIN_ELO || elo > MAX_ELO || elo % ELO_STEP != 0 then
      Reconfiguration(Err(InvalidElo(elo)), [])
    else
      var started := Lc0(WEIGHTS_DIR + WEIGHTS_PREFIX + DecimalString(elo) + WEIGHTS_SUFFIX);
      assert started == EngineFor(elo);
      EngineForRoundTrip(elo);
      Reconfiguration(Ok(started), [Quit(engine), PopenUci(LaunchCommand(started)), ConfigureThreads(1)])
  }
}
