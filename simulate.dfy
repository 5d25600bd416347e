/**
 * The mock simulation endpoint `POST /api/simulate`: a clamped linear prediction of the
 * degradation percentage from the elapsed days, with the request's fields echoed back.
 * Percentages are exact fixed-point numbers of hundredths.
 */
module Simulate {
  import opened Types

  /** 100 %, the upper clamp. */
  const CEILING: Hundredths := 10000
  /** 35.6 %, the prediction at day 0. */
  const BASE: Hundredths := 3560
  /** 1.5 % per day. */
  const RATE: Hundredths := 150

  /** min(100, 35.6 + 1.5 t) in hundredths of a percent, for a whole number of days t. */
  function Predicted(timeDays: int): (p: Hundredths)
    ensures p <= CEILING
    ensures p == BASE + RATE * timeDays <==> timeDays <= 42
    ensures timeDays > 42 ==> p == CEILING
  {
    if BASE + RATE * timeDays <= CEILING then BASE + RATE * timeDays else CEILING
  }

  // ---------------------------------------------------------------------------------------------
  // The formula over the reals, and rounding to two decimals

  function RealMin(a: real, b: real): real
  {
    if a <= b then a else b
  }

  /** The endpoint's formula, `min(100, 35.6 + 1.5 * time_days)`, evaluated exactly. */
  function Formula(timeDays: int): real
  {
    RealMin(100.0, 35.6 + 1.5 * (timeDays as real))
  }

  /** Rounding half up to a whole number of hundredths, what two-decimal formatting does. */
  function RoundToHundredths(x: real): int
  {
    (x * 100.0 + 0.5).Floor
  }

  /**
   * The fixed-point prediction is the exact formula, and rounding the formula to two decimals
   * does not change it: the value reported is the formula's value.
   */
  lemma PredictedIsFormula(timeDays: int)
    ensures Predicted(timeDays) as real == Formula(timeDays) * 100.0
    ensures Predicted(timeDays) == RoundToHundredths(Formula(timeDays))
  {
    var x := Formula(timeDays) * 100.0;
    assert x == Predicted(timeDays) as real;
    assert (x + 0.5).Floor == Predicted(timeDays);
  }

  /** A later time never predicts less. */
  lemma PredictedMonotone(t1: int, t2: int)
    requires t1 <= t2
    ensures Predicted(t1) <= Predicted(t2)
  {
  }

  /** There is no lower clamp: a negative time predicts less than 35.6 %. */
  lemma NoLowerClamp(timeDays: int)
    requires timeDays < 0
    ensures Predicted(timeDays) < BASE
    ensures Predicted(timeDays) == BASE + RATE * timeDays
  {
  }

  lemma PredictedExamples()
    ensures Predicted(0) == 3560
    ensures Predicted(10) == 5060
    ensures Predicted(42) == 9860
    ensures Predicted(43) == 10000
    ensures Predicted(100) == 10000
  {
  }

  // ---------------------------------------------------------------------------------------------
  // The request and its answer

  /**
   * A JSON value read from the request, as far as arithmetic sees it. `Other` is a string, array
   * or object, with the whole number of days it converts to, or `None` when it converts to NaN.
   */
  datatype JsonValue = Null | Bool(b: bool) | Number(n: int) | Other(asDays: Option<int>)

  /**
   * The whole number `1.5 * v` multiplies for a value `v`: null counts as 0, a boolean as 0 or 1,
   * a number as itself; `None` is NaN.
   */
  function Days(v: JsonValue): (d: Option<int>)
    ensures v.Null? ==> d == Some(0)
    ensures v.Bool? ==> d == Some(if v.b then 1 else 0)
    ensures v.Number? ==> d == Some(v.n)
  {
    match v
    case Null => Some(0)
    case Bool(b) => Some(if b then 1 else 0)
    case Number(n) => Some(n)
    case Other(k) => k
  }

  /**
   * A `simulation_params` that is neither missing nor null. Its `time_days` is `None` when it is
   * missing, which is also what any primitive such as `5`, `"x"` or `true` gives, since a
   * primitive has no such property.
   */
  datatype Params = Params(timeDays: Option<JsonValue>)

  /**
   * The request body as parsed. `Unparseable` is a body that is not JSON, or the JSON `null`,
   * which cannot be destructured. Otherwise `sample_id` is present or not, and
   * `simulationParams` is `None` when `simulation_params` is missing or null.
   */
  datatype Body = Unparseable | Json(sampleId: Option<JsonValue>, simulationParams: Option<Params>)

  /**
   * The echoed result. A `None` prediction is NaN, which is serialized as null. A `None` id or
   * time is `undefined`, which the serialization omits; any other value is echoed as it came.
   */
  datatype SimulationResult = SimulationResult(
    sampleId: Option<JsonValue>,
    predictedDegradationPct: Option<Hundredths>,
    simulationTimeDays: Option<JsonValue>)

  datatype Reply = Result(result: SimulationResult) | Error(error: string)

  datatype SimResponse = SimResponse(status: int, contentType: string, reply: Reply)

  const FAILED: SimResponse := SimResponse(500, "application/json", Error("Failed to run simulation"))

  /**
   * The prediction for a `time_days` value: the clamped formula when the value converts to a
   * number of days; NaN (`None`) when it is missing or converts to NaN.
   */
  function Prediction(time: Option<JsonValue>): (p: Option<Hundredths>)
    ensures p.Some? <==> time.Some? && Days(time.value).Some?
    ensures p.Some? ==> p.value == Predicted(Days(time.value).value) && p.value <= CEILING
  {
    match time
    case None => None
    case Some(v) =>
      match Days(v)
      case None => None
      case Some(t) => Some(Predicted(t))
  }

  /**
   * Handles one request. Reading the body fails, and the answer is the generic 500 error, when
   * the body cannot be destructured or `simulation_params` is missing or null, so that reading
   * its `time_days` throws. Every other body gets a 200 with the prediction and the echoed id
   * and time.
   */
  function Post(body: Body): (r: SimResponse)
    ensures r.contentType == "application/json"
    ensures r.status == 200 || r == FAILED
    ensures r.status == 200 <==> body.Json? && body.simulationParams.Some?
    ensures r.status == 200 ==>
              var time := body.simulationParams.value.timeDays;
              && r.reply.Result?
              && r.reply.result.sampleId == body.sampleId
              && r.reply.result.simulationTimeDays == time
              && r.reply.result.predictedDegradationPct == Prediction(time)
  {
    match body
    case Unparseable => FAILED
    case Json(sampleId, params) =>
      match params
      case None => FAILED
      case Some(Params(time)) =>
        SimResponse(200, "application/json", Result(SimulationResult(sampleId, Prediction(time), time)))
  }

  /** A complete request is answered with the clamped prediction, never above 100 %. */
  lemma WellFormedRequest(sampleId: int, timeDays: int)
    ensures Post(Json(Some(Number(sampleId)), Some(Params(Some(Number(timeDays))))))
            == SimResponse(200, "application/json",
                           Result(SimulationResult(Some(Number(sampleId)), Some(Predicted(timeDays)), Some(Number(timeDays)))))
    ensures Predicted(timeDays) <= CEILING
  {
  }

  /**
   * Odd but accepted requests: a primitive `simulation_params` has no `time_days` and predicts
   * NaN; a null `time_days` counts as day 0 and a `true` one as day 1, each echoed as it came.
   */
  lemma LenientRequests(sampleId: int)
    ensures Post(Json(Some(Number(sampleId)), Some(Params(None))))
            == SimResponse(200, "application/json", Result(SimulationResult(Some(Number(sampleId)), None, None)))
    ensures Post(Json(Some(Number(sampleId)), Some(Params(Some(Null))))).reply.result
            == SimulationResult(Some(Number(sampleId)), Some(3560), Some(Null))
    ensures Post(Json(Some(Number(sampleId)), Some(Params(Some(Bool(true)))))).reply.result
            == SimulationResult(Some(Number(sampleId)), Some(3710), Some(Bool(true)))
    ensures Post(Json(None, None)) == FAILED
  {
  }
}
