/**
 Gas estimation (rpc/estimate.go): the highest limit the caller can pay for, then a skewed bisection that stops early.
 Running the call is a function of the gas limit; the floating-point quotient of the source is a real one.
 */
module GasEstimate {
  import opened Types

  const TX_GAS := 21000
  const CALL_STIPEND := 2300
  const BLOB_GAS := 0x2_0000
  const ERROR_RATIO := 0.015

  /** What running the call can come to; intrinsic gas that is too low is a failure without a result. */
  datatype Execution =
    | Broken
    | IntrinsicGasTooLow
    | Reverted(outOfGas: bool)
    | Succeeded(usedGas: nat, refundedGas: nat)

  datatype Outcome =
    | Estimated(gas: nat)
    | InsufficientFundsForTransfer
    | InsufficientFunds
    | ExecutionBroken
    | CallReverted
    | GasRequiredExceedsAllowance(limit: nat)

  /** The parts of the call message, its account and the options that bound the limit. */
  datatype Request = Request(
    headerGasLimit: nat,
    feeCap: nat,
    balance: nat,
    value: Option<nat>,
    blobs: nat,              // number of blob hashes, zero before Cancun
    blobFeeCap: nat,
    gasCap: nat,
    hasData: bool,
    toCodeless: bool)        // the call has a destination and it has no code

  // ---------------------------------------------------------- the highest limit

  function ValueOf(r: Request): nat {
    match r.value case Some(v) => v case None => 0
  }

  function BlobCost(r: Request): nat {
    r.blobs * BLOB_GAS * r.blobFeeCap
  }

  /** The balance pays for the value, for 2^17 units of gas a blob, and for this much gas at the fee cap. */
  predicate Affordable(r: Request, gas: nat) {
    ValueOf(r) + r.blobs * 131072 * r.blobFeeCap + gas * r.feeCap <= r.balance
  }

  function Requested(r: Request, callGasLimit: nat): nat {
    if callGasLimit >= 21000 then callGasLimit else r.headerGasLimit
  }

  predicate Within(r: Request, callGasLimit: nat, gas: nat) {
    && gas <= Requested(r, callGasLimit)
    && (r.gasCap != 0 ==> gas <= r.gasCap)
    && (r.feeCap != 0 ==> Affordable(r, gas))
  }

  /** Funds are refused when nothing is left for gas, even at no gas at all. */
  predicate LacksTransfer(r: Request) {
    r.feeCap != 0 && r.value.Some? && ValueOf(r) >= r.balance
  }

  predicate LacksBlobs(r: Request) {
    r.feeCap != 0 && !LacksTransfer(r) && r.blobs > 0 &&
      ValueOf(r) + r.blobs * 131072 * r.blobFeeCap >= r.balance
  }

  predicate PlainTransfer(r: Request) {
    !r.hasData && r.toCodeless
  }

  /** The largest limit within the bounds. */
  ghost predicate Highest(r: Request, callGasLimit: nat, top: nat) {
    Within(r, callGasLimit, top) && forall g: nat :: Within(r, callGasLimit, g) ==> g <= top
  }

  lemma AllowanceIsExact(available: nat, feeCap: nat, gas: nat)
    requires feeCap > 0
    ensures gas <= available / feeCap <==> gas * feeCap <= available
  {
    var q := available / feeCap;
    assert q * feeCap <= available < (q + 1) * feeCap;
    if gas <= q {
      assert gas * feeCap <= q * feeCap;
    } else {
      assert gas * feeCap >= (q + 1) * feeCap;
    }
  }

  lemma AllowanceMeans(r: Request, available: nat)
    requires r.feeCap > 0 && available + ValueOf(r) + BlobCost(r) == r.balance
    ensures forall g: nat {:trigger Affordable(r, g)} :: Affordable(r, g) <==> g <= available / r.feeCap
  {
    forall g: nat ensures Affordable(r, g) <==> g <= available / r.feeCap { AllowanceIsExact(available, r.feeCap, g); }
  }

  lemma NoBlobsNoCost(r: Request)
    ensures r.blobs == 0 ==> BlobCost(r) == 0
  {
  }

  // ------------------------------------------------------------------ the search

  predicate Succeeds(run: nat -> Execution, gas: nat) {
    run(gas).Succeeded?
  }

  /** More gas never turns success into failure. */
  ghost predicate Monotone(run: nat -> Execution) {
    forall g: nat, h: nat :: g <= h && Succeeds(run, g) ==> Succeeds(run, h)
  }

  /** gas - low is less than 1.5 percent of gas: too small a part of it to go on searching. */
  predicate CloseEnough(low: nat, gas: nat) {
    1000 * (gas - low) < 15 * gas
  }

  /** The estimate succeeds; just below it, or close enough below it, a lower limit fails. */
  ghost predicate Tight(run: nat -> Execution, low: nat, gas: nat) {
    && low < gas && Succeeds(run, gas) && !Succeeds(run, low)
    && (low + 1 == gas || CloseEnough(low, gas))
  }

  /** A tight estimate is the smallest limit that succeeds, or exceeds it by less than the error ratio allows. */
  lemma TightIsAlmostMinimal(run: nat -> Execution, low: nat, gas: nat, least: nat)
    requires Monotone(run) && Tight(run, low, gas)
    requires Succeeds(run, least) && forall g: nat :: g < least ==> !Succeeds(run, g)
    ensures least <= gas
    ensures least == gas || 1000 * (gas - least) < 15 * gas
  {
    assert least > low;
  }

  /** The quotient the search looks at. */
  lemma Quotient(low: nat, gas: nat)
    requires low < gas
    ensures (gas - low) as real / gas as real < ERROR_RATIO <==> CloseEnough(low, gas)
  {
    Scaled((gas - low) as real / gas as real, (gas - low) as real, gas as real);
    assert 1000.0 * (gas - low) as real == (1000 * (gas - low)) as real && 15.0 * gas as real == (15 * gas) as real;
  }

  lemma Scaled(quotient: real, part: real, whole: real)
    requires whole > 0.0 && quotient * whole == part
    ensures quotient < ERROR_RATIO <==> 1000.0 * part < 15.0 * whole
  {
    SameSign(15.0 - 1000.0 * quotient, whole);
    assert (15.0 - 1000.0 * quotient) * whole == 15.0 * whole - 1000.0 * (quotient * whole);
  }

  lemma SameSign(x: real, whole: real)
    requires whole > 0.0
    ensures x > 0.0 <==> x * whole > 0.0
  {
  }

  /** No sum or product of the search leaves uint64 below this limit. */
  const GAS_BOUND := 0x100_0000_0000_0000

  /** Executions use some gas, and no more than they are given. */
  ghost predicate UsesGas(run: nat -> Execution) {
    forall g: nat :: Succeeds(run, g) ==> 2 <= run(g).usedGas <= g && run(g).refundedGas <= g
  }

  class Estimator {
    const run: nat -> Execution
    /** call.GasLimit */
    var gasLimit: nat

    constructor (run: nat -> Execution, gasLimit: nat)
      ensures this.run == run && this.gasLimit == gasLimit
    {
      this.run := run;
      this.gasLimit := gasLimit;
    }

    /** Runs the call with its gas limit replaced, and puts the limit back. */
    method Execute(limit: nat) returns (result: Execution)
      modifies this
      ensures result == run(limit) && gasLimit == old(gasLimit)
    {
      var original := gasLimit;
      gasLimit := limit;
      result := run(gasLimit);
      gasLimit := original;
    }

    /** The gas the balance pays for after the value and the blobs. */
    method Allowance(r: Request) returns (allowance: nat, error: Option<Outcome>)
      requires r.feeCap != 0
      ensures LacksTransfer(r) <==> error == Some(InsufficientFundsForTransfer)
      ensures LacksBlobs(r) <==> error == Some(InsufficientFunds)
      ensures error.Some? ==> LacksTransfer(r) || LacksBlobs(r)
      ensures error.None? ==> forall g: nat {:trigger Affordable(r, g)} :: Affordable(r, g) <==> g <= allowance
    {
      error := None;
      var available := r.balance;
      if r.value.Some? {
        if r.value.value >= available {
          return 0, Some(InsufficientFundsForTransfer);
        }
        available := available - r.value.value;
      }
      if r.blobs > 0 {
        var blobCost := BlobCost(r);
        if blobCost >= available {
          return 0, Some(InsufficientFunds);
        }
        available := available - blobCost;
      }
      NoBlobsNoCost(r);
      allowance := available / r.feeCap;
      AllowanceMeans(r, available);
    }

    /** The largest limit that is asked for, capped and affordable. */
    method HighestLimit(r: Request) returns (hi: nat, error: Option<Outcome>)
      ensures LacksTransfer(r) <==> error == Some(InsufficientFundsForTransfer)
      ensures LacksBlobs(r) <==> error == Some(InsufficientFunds)
      ensures error.Some? ==> LacksTransfer(r) || LacksBlobs(r)
      ensures error.None? ==> Highest(r, gasLimit, hi)
    {
      hi := r.headerGasLimit;
      error := None;
      if gasLimit >= TX_GAS {
        hi := gasLimit;
      }
      if r.feeCap != 0 {
        var allowance;
        allowance, error := Allowance(r);
        if error.Some? {
          return 0, error;
        }
        if hi > allowance {
          hi := allowance;
        }
      }
      if r.gasCap != 0 && hi > r.gasCap {
        hi := r.gasCap;
      }
    }

    /** The bisection: each round the limit tried lies strictly between one that fails and one that succeeds. */
    method Bisect(from: nat, to: nat) returns (res: Outcome, ghost low: nat)
      requires 1 <= from < to < GAS_BOUND && Succeeds(run, to)
      modifies this
      ensures gasLimit == old(gasLimit)
      ensures res.Estimated? || res == ExecutionBroken
      ensures res.Estimated? ==> from < res.gas <= to && Succeeds(run, res.gas)
      ensures res.Estimated? && !Succeeds(run, from) ==> Tight(run, low, res.gas)
      ensures res == ExecutionBroken ==> exists g: nat :: from < g < to && run(g) == Broken
    {
      var lo, hi := from, to;
      while lo + 1 < hi
        invariant from <= lo < hi <= to && gasLimit == old(gasLimit)
        invariant Succeeds(run, hi) && (!Succeeds(run, from) ==> !Succeeds(run, lo))
        decreases hi - lo
      {
        Quotient(lo, hi);
        if (hi - lo) as real / hi as real < ERROR_RATIO {
          break;
        }
        assert hi + lo < TWO_64 && lo * 2 < TWO_64;
        var mid := (hi + lo) / 2;
        if mid > lo * 2 {
          mid := lo * 2;
        }
        assert lo < mid < hi;
        var result := Execute(mid);
        if result == Broken {
          return ExecutionBroken, 0;
        }
        if !result.Succeeded? {
          lo := mid;
        } else {
          hi := mid;
        }
      }
      res := Estimated(hi);
      low := lo;
    }

    /** low is the witness of tightness: a limit below the estimate that fails. */
    method Estimate(r: Request) returns (res: Outcome, ghost low: nat)
      requires r.headerGasLimit < GAS_BOUND / 4 && gasLimit < GAS_BOUND / 4 && UsesGas(run)
      modifies this
      ensures gasLimit == old(gasLimit)
      ensures res.Estimated? ==> Succeeds(run, res.gas)
      ensures res == InsufficientFundsForTransfer <==> LacksTransfer(r)
      ensures res == InsufficientFunds <==> LacksBlobs(r)
      ensures PlainTransfer(r) && Succeeds(run, 21000) && !LacksTransfer(r) && !LacksBlobs(r) ==>
              res == Estimated(21000)
      ensures res.Estimated? && !(PlainTransfer(r) && Succeeds(run, 21000)) ==>
                && Within(r, gasLimit, res.gas)
                && exists top: nat :: Highest(r, gasLimit, top) && Succeeds(run, top) &&
                     (!Succeeds(run, run(top).usedGas - 1) ==> Tight(run, low, res.gas))
      ensures res.GasRequiredExceedsAllowance? ==>
                Highest(r, gasLimit, res.limit) && run(res.limit) in {IntrinsicGasTooLow, Reverted(true)}
      ensures res == CallReverted ==> exists top: nat :: Highest(r, gasLimit, top) && run(top) == Reverted(false)
      ensures res == ExecutionBroken ==> exists g: nat :: run(g) == Broken
    {
      low := 0;
      var hi, error := HighestLimit(r);
      if error.Some? {
        return error.value, 0;
      }
      if PlainTransfer(r) {
        var result := Execute(TX_GAS);
        if result.Succeeded? {
          return Estimated(TX_GAS), 0;
        }
      }
      var result := Execute(hi);
      match result
      case Broken => return ExecutionBroken, 0;
      case IntrinsicGasTooLow => return GasRequiredExceedsAllowance(hi), 0;
      case Reverted(outOfGas) =>
        if !outOfGas {
          return CallReverted, 0;
        }
        return GasRequiredExceedsAllowance(hi), 0;
      case Succeeded(usedGas, refundedGas) =>
        ghost var top := hi;
        assert Succeeds(run, top);
        var lo := usedGas - 1;
        assert (usedGas + refundedGas + CALL_STIPEND) * 64 < TWO_64;
        var optimistic := (usedGas + refundedGas + CALL_STIPEND) * 64 / 63;
        assert optimistic > lo;
        if optimistic < hi {
          var attempt := Execute(optimistic);
          if attempt == Broken {
            return ExecutionBroken, 0;
          }
          if !attempt.Succeeded? {
            lo := optimistic;
          } else {
            hi := optimistic;
          }
        }
        res, low := Bisect(lo, hi);
        if res.Estimated? {
          WithinBelow(r, gasLimit, top, res.gas);
          assert !Succeeds(run, run(top).usedGas - 1) ==> Tight(run, low, res.gas);
        }
    }
  }

  lemma WithinBelow(r: Request, callGasLimit: nat, top: nat, gas: nat)
    requires Within(r, callGasLimit, top) && gas <= top
    ensures Within(r, callGasLimit, gas)
  {
    assert gas * r.feeCap <= top * r.feeCap;
  }
}
