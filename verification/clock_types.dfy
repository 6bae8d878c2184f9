/**
 Values of the clock coordinator: what it persists, what it keeps in memory
 and what it answers to its clients.
 Times are integers in nanoseconds; offsets, residuals and uncertainties are
 reals in seconds.
 */
module ClockTypes {
  import opened Options

  const SECOND := 1_000_000_000
  const EPISODE_WINDOW := 90 * SECOND
  const SAMPLE_MAX_AGE := 30 * SECOND
  const INT64_MAX := 0x7FFF_FFFF_FFFF_FFFF

  newtype int64 = x: int | -0x8000_0000_0000_0000 <= x <= 0x7FFF_FFFF_FFFF_FFFF

  const MAX_BOOT := 0x4000_0000_0000_0000

  /** A CLOCK_BOOTTIME reading: positive once the kernel runs (0 is the "no resume" sentinel), and less than 146 years. */
  type BootTime = b: int | 0 < b <= MAX_BOOT witness 1

  /** One successful clock reading: UTC wall time and CLOCK_BOOTTIME. */
  datatype Clock = Clock(wall: int, boot: BootTime)

  datatype Source = Nrf | Gps | User | Ntp | NetworkHoldover | Local | Unknown | Other

  datatype Episode = Initial | ResumeEpisode | LateExternal | LateHoldover

  datatype Outcome = Available | InFlight | Completed | Unresolved | Failed | Expired | Reconciled

  datatype Sample = Sample(receipt: int, age: int, uncertainty: int)

  const NO_SAMPLE := Sample(0, 0, 0)

  /** Evidence on which external trust was last established. */
  datatype Basis = NoBasis | NtpObserved(boot: int) | GpsReceived(boot: int)

  /**
   Auxiliary history, read by no branch of the coordinator: the boot time of the
   last loss-detecting resume (0 if none) and the evidence that established trust.
   It rides in `State` so that it is rolled back, written and reloaded exactly
   when the state it explains is.
   */
  datatype History = History(lossBoot: int, basis: Basis)

  /** The suspend fence and its baseline. */
  datatype Fence = Fence(preparing: bool, baselineValid: bool, utc: int, boot: int)

  /** The admission window and what has been spent of it. */
  datatype Budget = Budget(
    episode: Episode, deadline: int, outcome: Outcome, attempts: nat, lateUsed: bool, lateHoldoverUsed: bool)

  /** The last admitted command. */
  datatype Dispatch = Dispatch(boot: int, utc: int, residual: real, source: Source, sample: Sample)

  /** External trust, with its auxiliary history. */
  datatype Trust = Trust(established: bool, afterBoot: int, history: History)

  /** The persisted record; its fields are grouped by the part of the protocol that uses them. */
  datatype State = State(
    bootId: string,
    generation: nat,
    fence: Fence,
    budget: Budget,
    dispatch: Dispatch,
    trust: Trust,
    samples: map<Source, Sample>)
  {
    function WithOutcome(o: Outcome): State {
      this.(budget := budget.(outcome := o))
    }

    function WithPreparing(p: bool): State {
      this.(fence := fence.(preparing := p))
    }
  }

  const MAX_REPORT_AGE := 7200 * SECOND

  /** One chrony tracking report, or one with evidence folded in; ages are never negative. */
  datatype Tracking = Tracking(
    source: Source,
    external: bool,
    age: nat,
    residual: real,
    uncertainty: real,
    skewPpm: real)

  /** A report as the adapter hands it over: it refuses one older than two hours. */
  type Report = t: Tracking | t.age <= MAX_REPORT_AGE witness Tracking(Unknown, false, 0, 0.0, 0.0, 0.0)

  /** The quality the engine keeps between refreshes, valid at the engine's `qualityBoot`. */
  datatype Quality = Quality(source: Source, external: bool, age: int, residual: real, uncertainty: real)

  const UNKNOWN_QUALITY := Quality(Unknown, false, 0, 0.0, 0.0)

  /** What `Status` answers. */
  datatype Status = Status(
    quality: Quality,
    bootId: string,
    generation: nat,
    episode: Episode,
    outcome: Outcome,
    preparing: bool,
    nrfEligible: bool,
    deadline: int)

  /**
   What a save left behind. A save can report an error after the rename has
   happened, so a failed save leaves either the old or the new record.
   */
  datatype SaveResult = Written | FailedOld | FailedNew

  /** The engine as seen between two critical sections, with the file it persists to. */
  datatype Node = Node(
    st: State,
    samples: map<Source, Sample>,
    quality: Quality,
    qualityBoot: int,
    inFlight: bool,
    disk: State)

  function Abs(x: real): real {
    if x < 0.0 then -x else x
  }

  function MaxReal(x: real, y: real): real {
    if x < y then y else x
  }

  function Seconds(ns: int): real {
    ns as real / 1_000_000_000.0
  }

  /** Subtraction of two instants: the result saturates at the 64-bit duration range. */
  function SaturatingSub(a: int, b: int): int {
    if a - b > INT64_MAX then INT64_MAX
    else if a - b < -INT64_MAX - 1 then -INT64_MAX - 1
    else a - b
  }

  predicate Resolved(o: Outcome) {
    o != Unresolved && o != InFlight
  }

  predicate Producer(s: Source) {
    s == Nrf || s == Gps || s == User
  }
}
