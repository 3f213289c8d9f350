/**
 * The wait for the Ready connection status at the end of `init_discord_sdk`
 * (rust-native/src/main.rs:2232-2270 for a stored token, 2634-2670 after OAuth). Each pass
 * pumps callbacks, reads CURRENT_STATUS, and sleeps 200 ms, for at most 30 s, so the loop
 * reads the status at most 150 times.
 */
module BridgeReady {
  import opened Wrappers
  import opened Decimal

  const READY_DEADLINE: nat := 30000
  const READY_INTERVAL: nat := 200
  /** The number of status reads before the deadline: ticks 0, 200, ..., 29800. */
  const READY_POLLS: nat := 150

  const READY_STATUS: int := 3
  const INITIALIZED_MESSAGE: string := "initialized"
  const ERROR_4004_MESSAGE: string := "SDK error 4004" + " - app not configured for SDK in Developer Portal"
  const STUCK_PREFIX: string := "SDK connection timeout - stuck at status="

  /**
   * CURRENT_STATUS after the k-th pump: the status callbacks deliver `observed` one value per
   * pump; once they stop, the status stays where the last one left it (`start` if none came).
   */
  function StatusAt(start: i32, observed: seq<i32>, k: nat): i32
  {
    if k < |observed| then observed[k]
    else if |observed| > 0 then observed[|observed| - 1]
    else start
  }

  /** The first read at or after `from`, and before the deadline, that shows Ready. */
  function FirstReady(start: i32, observed: seq<i32>, from: nat): (r: Option<nat>)
    requires from <= READY_POLLS
    ensures r.Some? ==> from <= r.value < READY_POLLS && StatusAt(start, observed, r.value) >= READY_STATUS
    ensures r.Some? ==> forall j :: from <= j < r.value ==> StatusAt(start, observed, j) < READY_STATUS
    ensures r.None? <==> forall j :: from <= j < READY_POLLS ==> StatusAt(start, observed, j) < READY_STATUS
    decreases READY_POLLS - from
  {
    if from == READY_POLLS then None
    else if StatusAt(start, observed, from) >= READY_STATUS then Some(from)
    else FirstReady(start, observed, from + 1)
  }

  /** What the wait returns, and the CURRENT_STATUS it leaves behind. */
  datatype ReadyOutcome = ReadyOutcome(result: Result<string, string>, finalStatus: i32)

  /** The outcome the source intends: Ready at the first status >= 3, else a report of the last status. */
  function ExpectedOutcome(start: i32, observed: seq<i32>): ReadyOutcome
  {
    match FirstReady(start, observed, 0)
    case Some(k) => ReadyOutcome(Ok(INITIALIZED_MESSAGE), StatusAt(start, observed, k))
    case None =>
      var last := StatusAt(start, observed, READY_POLLS - 1);
      ReadyOutcome(Err(STUCK_PREFIX + IntToString(last)), last)
  }

  /**
   * The loop as written. `last_status` is overwritten with `status` before the "status went
   * 2 -> 0" test, so that test compares `status` with itself and `error_4004_seen` never becomes
   * true: every failure reports the stuck status, never error 4004.
   */
  method WaitForReady(start: i32, observed: seq<i32>) returns (outcome: ReadyOutcome)
    ensures outcome == ExpectedOutcome(start, observed)
    ensures outcome.result.Ok? <==> exists k :: 0 <= k < READY_POLLS && StatusAt(start, observed, k) >= READY_STATUS
    ensures outcome.result != Err(ERROR_4004_MESSAGE)
  {
    var elapsed: nat := 0;
    var k: nat := 0;
    var lastStatus: int := 0;
    var error4004Seen := false;
    while elapsed < READY_DEADLINE
      invariant elapsed == k * READY_INTERVAL && k <= READY_POLLS
      invariant forall j :: 0 <= j < k ==> StatusAt(start, observed, j) < READY_STATUS
      invariant !error4004Seen
      decreases READY_DEADLINE - elapsed
    {
      var status := StatusAt(start, observed, k);
      if status != lastStatus {
        lastStatus := status;
      }
      if status >= READY_STATUS {
        outcome := ReadyOutcome(Ok(INITIALIZED_MESSAGE), status);
        FirstReadyIs(start, observed, 0, k);
        ExpectedOutcomeOk(start, observed);
        return;
      }
      if status == 0 && lastStatus == 2 {
        error4004Seen := true;
      }
      elapsed, k := elapsed + READY_INTERVAL, k + 1;
    }
    assert k == READY_POLLS;
    var finalStatus := StatusAt(start, observed, k - 1);
    if error4004Seen {
      outcome := ReadyOutcome(Err(ERROR_4004_MESSAGE), finalStatus);
    } else {
      outcome := ReadyOutcome(Err(STUCK_PREFIX + IntToString(finalStatus)), finalStatus);
    }
    IntToStringNot4004(finalStatus);
    ExpectedOutcomeOk(start, observed);
  }

  /** The intended outcome is a success exactly when some read before the deadline shows Ready. */
  lemma ExpectedOutcomeOk(start: i32, observed: seq<i32>)
    ensures ExpectedOutcome(start, observed).result.Ok? <==>
            exists k :: 0 <= k < READY_POLLS && StatusAt(start, observed, k) >= READY_STATUS
  {
    var f := FirstReady(start, observed, 0);
    if f.Some? {
      assert StatusAt(start, observed, f.value) >= READY_STATUS;
    }
  }

  /** The first Ready read is the one `FirstReady` finds. */
  lemma {:induction false} FirstReadyIs(start: i32, observed: seq<i32>, from: nat, k: nat)
    requires from <= k < READY_POLLS && StatusAt(start, observed, k) >= READY_STATUS
    requires forall j :: from <= j < k ==> StatusAt(start, observed, j) < READY_STATUS
    ensures FirstReady(start, observed, from) == Some(k)
    decreases k - from
  {
    if from < k {
      FirstReadyIs(start, observed, from + 1, k);
    }
  }

  /** The stuck report never coincides with the 4004 message. */
  lemma IntToStringNot4004(status: int)
    ensures STUCK_PREFIX + IntToString(status) != ERROR_4004_MESSAGE
  {
    var stuck := STUCK_PREFIX + IntToString(status);
    assert stuck[4] == STUCK_PREFIX[4] == 'c';
    assert ERROR_4004_MESSAGE[4] == 'e';
  }

  /** A status that drops from 2 (Connected) to 0 is reported as stuck at 0, not as error 4004. */
  lemma RegressionReportedAsStuck(start: i32)
    ensures ExpectedOutcome(start, [2, 0]) == ReadyOutcome(Err(STUCK_PREFIX + "0"), 0)
  {
    assert forall j :: 0 <= j < READY_POLLS ==> StatusAt(start, [2, 0], j) < READY_STATUS;
    assert StatusAt(start, [2, 0], READY_POLLS - 1) == 0;
  }

  /** A Ready status that arrives only after the 150th read is not seen. */
  lemma LateReadyMissed(start: i32, observed: seq<i32>)
    requires start < READY_STATUS && |observed| > READY_POLLS
    requires forall j :: 0 <= j < READY_POLLS ==> observed[j] < READY_STATUS
    ensures ExpectedOutcome(start, observed).result.Err?
  {
    assert forall j :: 0 <= j < READY_POLLS ==> StatusAt(start, observed, j) == observed[j];
  }
}
