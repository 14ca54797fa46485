/**
 How a lane's files are read as a verdict (`classify`) and as an exit status (`reportStatus`).
 A status file is modelled by its content after TrimSpace, "" standing for absent or empty.
 */
module LaneVerdict {
  datatype Verdict = NoRun | Pending | Running | Completed | Failed | Died

  /** What one reader sees of a lane. `reply` says that the reply file is non-empty. */
  datatype View = View(
    hasMeta: bool,
    status: string,
    hasPid: bool,
    alive: bool,
    reply: bool,
    turnStarted: bool,
    turnCompleted: bool,
    expired: bool)

  const WORKER_LOST: nat := 75
  const MAX_INT: nat := 0x7FFF_FFFF_FFFF_FFFF
  const EXIT_STATUSES: nat := 256

  predicate MidTurn(v: View) {
    v.turnStarted && !v.turnCompleted
  }

  function Classify(v: View): Verdict {
    if !v.hasMeta then NoRun
    else if v.status == Itoa(WORKER_LOST) then Died
    else if v.status != "" then
      if v.status == "0" then
        if !v.reply then Failed
        else if MidTurn(v) then Died
        else Completed
      else Failed
    else if !v.hasPid then
      if v.expired then Died else Pending
    else if v.alive then Running
    else if v.reply && !MidTurn(v) then Completed
    else Died
  }

  /** `--watch` and `--await` wait while a lane is unsettled. */
  predicate Settled(k: Verdict) {
    k != Pending && k != Running
  }

  /** The verdicts the pruner may delete. */
  predicate Terminal(k: Verdict) {
    k == Completed || k == Failed || k == NoRun
  }

  predicate IsDigit(c: char) {
    '0' <= c <= '9'
  }

  predicate AllDigits(s: string) {
    s != "" && forall i :: 0 <= i < |s| ==> IsDigit(s[i])
  }

  function Digit(c: char): nat
    requires IsDigit(c)
  {
    c as int - '0' as int
  }

  /** The number a string of digits denotes. */
  function Value(s: string): nat
    requires forall i :: 0 <= i < |s| ==> IsDigit(s[i])
  {
    if s == "" then 0 else 10 * Value(s[..|s| - 1]) + Digit(s[|s| - 1])
  }

  /** strconv.Atoi with its error dropped: a number too large for an int reads as the largest one. */
  function Atoi(s: string): nat
    requires AllDigits(s)
  {
    if Value(s) > MAX_INT then MAX_INT else Value(s)
  }

  /** strconv.Itoa on a non-negative number. */
  function Itoa(n: nat): (s: string)
    ensures AllDigits(s) && Value(s) == n
  {
    var last := ('0' as int + n % 10) as char;
    if n < 10 then
      assert [last][..0] == "";
      [last]
    else
      var s := Itoa(n / 10) + [last];
      assert s[..|s| - 1] == Itoa(n / 10);
      s
  }

  /** The exit status a caller sees after reportStatus; the system keeps the low eight bits. */
  function ReportExit(v: View): nat {
    if !AllDigits(v.status) then 1
    else if Atoi(v.status) == 0 && !v.reply then 1
    else if Atoi(v.status) == 0 && MidTurn(v) then 1
    else Atoi(v.status) % EXIT_STATUSES
  }

  /**
   When the verdict and the exit status agree on success: the status is the canonical "0", or it is
   another spelling of zero for a run without a whole reply, or a code that is not a multiple of 256.
   */
  predicate Agreeing(v: View)
    requires AllDigits(v.status)
  {
    v.status == "0" || if Atoi(v.status) == 0 then !v.reply || MidTurn(v) else Atoi(v.status) % EXIT_STATUSES != 0
  }

  /** Each verdict by what the reader sees. */
  lemma VerdictMeans(v: View)
    ensures Classify(v) == NoRun <==> !v.hasMeta
    ensures Classify(v) == Pending <==> v.hasMeta && v.status == "" && !v.hasPid && !v.expired
    ensures Classify(v) == Running <==> v.hasMeta && v.status == "" && v.hasPid && v.alive
    ensures Classify(v) == Completed <==>
      v.hasMeta && v.reply && (!v.turnStarted || v.turnCompleted) && (v.status == "0" || (v.status == "" && v.hasPid && !v.alive))
    ensures Classify(v) == Failed <==> v.hasMeta && v.status != "" && v.status != "75" && (v.status == "0" ==> !v.reply)
    ensures v.hasMeta && v.status == "75" ==> Classify(v) == Died
  {
    ItoaOfTwo(7, 5);
  }

  lemma ItoaOfTwo(a: nat, b: nat)
    requires 0 < a < 10 && b < 10
    ensures Itoa(10 * a + b) == [('0' as int + a) as char, ('0' as int + b) as char]
  {
    assert (10 * a + b) / 10 == a && (10 * a + b) % 10 == b;
    assert Itoa(a) == [('0' as int + a) as char];
  }

  /** The exit status by what the reader sees: strconv.Atoi reads a number past the largest int as that int. */
  lemma ExitMeans(v: View)
    ensures !AllDigits(v.status) ==> ReportExit(v) == 1
    ensures AllDigits(v.status) && Value(v.status) == 0 ==>
      ReportExit(v) == if v.reply && (!v.turnStarted || v.turnCompleted) then 0 else 1
    ensures AllDigits(v.status) && 0 < Value(v.status) < 256 ==> ReportExit(v) == Value(v.status)
    ensures AllDigits(v.status) && Value(v.status) >= 256 ==>
      ReportExit(v) == if Value(v.status) < 0x8000_0000_0000_0000 then Value(v.status) % 256 else 255
  {
  }

  /** After an ordinary end with status 0 and a reply, all turns on whether the log ends within a turn. */
  lemma ZeroStatus(v: View)
    requires v.hasMeta && v.status == "0" && v.reply
    ensures Classify(v) == (if !v.turnStarted || v.turnCompleted then Completed else Died)
    ensures ReportExit(v) == if !v.turnStarted || v.turnCompleted then 0 else 1
  {
    ItoaOfTwo(7, 5);
    assert "0"[..0] == "";
    assert Value("0") == 0;
  }

  lemma CompletedIffReportZero(v: View)
    requires v.hasMeta && AllDigits(v.status)
    ensures (Classify(v) == Completed <==> ReportExit(v) == 0) <==> Agreeing(v)
  {
    ItoaIsCanonical(0);
    assert Value("0") == 0 by { assert "0" == Itoa(0); }
    if v.status == Itoa(WORKER_LOST) {
      assert Atoi(v.status) == WORKER_LOST;
    }
  }

  /** A status of two zeroes exits 0 although the lane is classified failed. */
  lemma PaddedZeroDisagrees(v: View)
    requires v.hasMeta && v.status == "00" && v.reply && !MidTurn(v)
    ensures Classify(v) == Failed && ReportExit(v) == 0
  {
    assert "00"[..1] == "0" && "0"[..0] == "";
    assert Value("0") == 0 && Value("00") == 0;
    ItoaIsCanonical(WORKER_LOST);
    assert Value(Itoa(WORKER_LOST)) == 75;
  }

  /** A status of 256 exits 0 although the lane is classified failed. */
  lemma WrappedZeroDisagrees(v: View)
    requires v.hasMeta && v.status == "256"
    ensures Classify(v) == Failed && ReportExit(v) == 0
  {
    assert "256"[..2] == "25" && "25"[..1] == "2" && "2"[..0] == "";
    assert Value("2") == 2 && Value("25") == 25 && Value("256") == 256;
    assert Value(Itoa(WORKER_LOST)) == 75;
  }

  /** Every code that a worker, a dispatcher or an awaiter writes is in the agreeing range. */
  lemma WrittenCodesAgree(v: View, code: nat)
    requires v.hasMeta && v.status == Itoa(code) && code < EXIT_STATUSES
    ensures Classify(v) == Completed <==> ReportExit(v) == 0
    ensures code != 0 ==> ReportExit(v) == code
  {
    assert Value(v.status) == code;
    assert Atoi(v.status) == code;
    assert Agreeing(v) by { ItoaIsCanonical(code); }
    CompletedIffReportZero(v);
    if code != 0 {
      assert v.status != "0" by { ItoaIsCanonical(code); }
    }
  }

  lemma ItoaIsCanonical(n: nat)
    ensures Itoa(n) == "0" <==> n == 0
    ensures Itoa(n) == Itoa(WORKER_LOST) <==> n == WORKER_LOST
    ensures Itoa(n) != ""
  {
    assert Value(Itoa(n)) == n;
    assert "0"[..0] == "";
    assert Value("0") == 0;
  }

  /** What pollStatus writes for a lane without a status; "" while it still waits. */
  function Recovery(v: View): string {
    if v.status != "" then v.status
    else if !v.hasPid then if v.expired then Itoa(WORKER_LOST) else ""
    else if v.alive then ""
    else if v.reply then "0"
    else Itoa(WORKER_LOST)
  }

  lemma RecoveryPreservesVerdict(v: View)
    ensures Classify(v.(status := Recovery(v))) == Classify(v)
  {
    ItoaIsCanonical(0);
    ItoaIsCanonical(WORKER_LOST);
  }
}
