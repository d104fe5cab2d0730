/** The analytics pipeline machine (backend/utils/FSM.go) under its runner (backend/services/analytics/analytics.go). */
module AnalyticsPipeline {
  import opened Wrappers
  import opened Fsm
  import opened FsmBuilder
  import opened FsmRuns
  import opened TableKit
  import opened PipelineRunner

  datatype ApState = Idle | Collecting | Aggregating | Enriching | Delivering | Completed | Failed

  datatype ApEvent = StartCollect | Collected | Aggregated | Enriched | Delivered | Fail

  datatype AnalyticsRun = AnalyticsRun(stage: ApState, recordCount: nat, error: string)

  type ApRow = Row<ApState, ApEvent>

  const ROWS: seq<ApRow> := [
    Row(Idle, StartCollect, Collecting),
    Row(Collecting, Collected, Aggregating),
    Row(Aggregating, Aggregated, Enriching),
    Row(Enriching, Enriched, Delivering),
    Row(Delivering, Delivered, Completed),
    Row(Collecting, Fail, Failed),
    Row(Aggregating, Fail, Failed),
    Row(Enriching, Fail, Failed),
    Row(Delivering, Fail, Failed)]

  function Demands(row: ApRow): Option<string> {
    if row.event == Collected then Some("cannot aggregate: no records were collected") else None
  }

  predicate Asks(row: ApRow, r: AnalyticsRun, env: Envelope<ApEvent>) { r.recordCount != 0 }

  function Makes(row: ApRow, r: AnalyticsRun, env: Envelope<ApEvent>): AnalyticsRun {
    var moved := r.(stage := row.to);
    if row.event == Fail && "error" in env.metadata then moved.(error := env.metadata["error"]) else moved
  }

  function ApTable(): Table<AnalyticsRun, ApState, ApEvent> {
    Table({Collecting, Aggregating, Enriching, Delivering}, Idle, {Completed, Failed}, ROWS, Demands, Asks, Makes, [])
  }

  function ApFsm(): Definition<AnalyticsRun, ApState, ApEvent> { Compiled(ApTable()) }

  function Rank(s: ApState): nat {
    match s
    case Idle => 5 case Collecting => 4 case Aggregating => 3 case Enriching => 2 case Delivering => 1 case _ => 0
  }

  /** The stages in order; a pair's row number is the state's position, plus four for a failure. */
  function Position(s: ApState): int {
    match s
    case Idle => 0 case Collecting => 1 case Aggregating => 2 case Enriching => 3 case Delivering => 4 case _ => 5
  }

  function RowNumber(s: ApState, e: ApEvent): int { if e == Fail then Position(s) + 4 else Position(s) }

  /** Where an event takes a run: on along the line, or to failed from any stage that has begun. */
  function ApTarget(s: ApState, e: ApEvent): Option<ApState> {
    match (s, e)
    case (Idle, StartCollect) => Some(Collecting)
    case (Collecting, Collected) => Some(Aggregating)
    case (Aggregating, Aggregated) => Some(Enriching)
    case (Enriching, Enriched) => Some(Delivering)
    case (Delivering, Delivered) => Some(Completed)
    case (_, Fail) => if 1 <= Position(s) <= 4 then Some(Failed) else None
    case _ => None
  }

  lemma RowsNumbered(i: nat)
    requires i < |ROWS|
    ensures RowNumbered(ApTable(), ApTarget, RowNumber, i)
    ensures Rank(ROWS[i].to) < Rank(ROWS[i].from)
  {
  }

  lemma PairsNumbered(s: ApState, e: ApEvent)
    ensures PairNumbered(ApTable(), ApTarget, RowNumber, s, e)
  {
    if ApTarget(s, e).Some? {
      assert ROWS[RowNumber(s, e)] == Row(s, e, ApTarget(s, e).value);
    }
  }

  /** The table is in order and is the reference row by row. */
  lemma AnalyticsDescribed()
    ensures Described(ApTable(), ApTarget)
    ensures forall row :: row in ROWS ==> Rank(row.to) < Rank(row.from)
  {
    forall i: nat | i < |ROWS|
      ensures RowNumbered(ApTable(), ApTarget, RowNumber, i)
      ensures Rank(ROWS[i].to) < Rank(ROWS[i].from)
    {
      RowsNumbered(i);
    }
    forall s, e ensures PairNumbered(ApTable(), ApTarget, RowNumber, s, e) {
      PairsNumbered(s, e);
    }
    NumberedTable(ApTable(), ApTarget, RowNumber);
  }

  lemma AnalyticsCompiles()
    ensures WellFormed(States(ApTable()), Transitions(ApTable())) && Ranked(ApFsm(), Rank)
  {
    AnalyticsDescribed();
    GoodRowsWellFormed(ApTable());
    RankedTable(ApTable(), Rank);
  }

  /** The table compiles, and at most five events ever succeed on one run. */
  lemma AnalyticsRunsAreShort(r: AnalyticsRun, start: ApState, xs: seq<Stimulus<AnalyticsRun, ApEvent>>)
    ensures WellFormed(States(ApTable()), Transitions(ApTable()))
    ensures Run(ApFsm(), Fresh<AnalyticsRun, ApState, ApEvent>(r, start), xs).seqNo <= 5
  {
    AnalyticsCompiles();
    RankBoundsRuns(ApFsm(), Rank, r, start, xs);
  }

  const PATH := [Collecting, Aggregating, Enriching, Delivering, Completed]
  const EVENTS := [Collected, Aggregated, Enriched, Delivered]

  function ApLine(): Line<AnalyticsRun, ApState, ApEvent> {
    Line(PATH, EVENTS, Failed, Fail,
         (i, r: AnalyticsRun) => i == 0 ==> r.recordCount != 0,
         (i, r: AnalyticsRun) => if i < 4 then r.(stage := PATH[i + 1]) else r,
         (r: AnalyticsRun, cause) => r.(stage := Failed, error := cause))
  }

  lemma ApLineInTable(i: nat)
    requires i < 4
    ensures LineInTable(ApTable(), ApTarget, ApLine(), i)
  {
  }

  lemma ApMovesOn(i: nat)
    requires i < 4
    ensures MovesOn(ApFsm(), ApLine(), i) && FailsFrom(ApFsm(), ApLine(), i)
  {
    AnalyticsDescribed();
    ApLineInTable(i);
    TableMovesOn(ApTable(), ApTarget, ApLine(), i);
  }

  lemma ApFollows()
    ensures Follows(ApFsm(), ApLine())
  {
    forall i: nat | i < 4 ensures MovesOn(ApFsm(), ApLine(), i) && FailsFrom(ApFsm(), ApLine(), i) {
      ApMovesOn(i);
    }
  }

  function Started(r: AnalyticsRun): AnalyticsRun { r.(stage := Collecting) }

  lemma ApStarts(r: AnalyticsRun)
    ensures var st := Fresh<AnalyticsRun, ApState, ApEvent>(r, Idle);
            var first := Dispatch(ApFsm(), st, Envelope(StartCollect, map[]));
            && first.error.None? && !first.state.inFlight
            && first.state.current == Collecting && first.state.seqNo == 1 && first.state.obj == Started(r)
  {
    AnalyticsDescribed();
    TargetSend(ApTable(), ApTarget, Fresh<AnalyticsRun, ApState, ApEvent>(r, Idle), Envelope(StartCollect, map[]));
  }

  /** What a run's end says about its stages and guards, and about the run's fields. */
  ghost predicate ApEndsWell(
      run: AnalyticsRun, stages: seq<Stage<AnalyticsRun, ApEvent>>,
      end: MachineState<AnalyticsRun, ApState, ApEvent>, error: Option<RunError<ApState, ApEvent>>)
    requires Canonical(ApLine(), stages)
  {
    && (error.None? <==>
          && (forall i: nat :: i < 4 ==> StageOk(ApLine(), Started(run), stages, i))
          && stages[0].run(Started(run)).obj.recordCount != 0)
    && (error.None? ==> end.current == Completed && end.seqNo == 5 && end.obj.stage == Completed)
    && (error.Some? && error.value.StageFailed? ==>
          end.current == Failed && end.obj.stage == Failed && end.obj.error == error.value.cause)
  }

  lemma ApEnds(
      run: AnalyticsRun, stages: seq<Stage<AnalyticsRun, ApEvent>>,
      end: MachineState<AnalyticsRun, ApState, ApEvent>, error: Option<RunError<ApState, ApEvent>>)
    requires Canonical(ApLine(), stages)
    requires EndsAs(ApLine(), Started(run), 1, stages, FirstTrouble(ApLine(), Started(run), stages, 0), end, error)
    ensures ApEndsWell(run, stages, end, error)
  {
    var k := FirstTrouble(ApLine(), Started(run), stages, 0);
    if k < 4 {
      assert !StageOk(ApLine(), Started(run), stages, k) || !GuardOk(ApLine(), Started(run), stages, k);
    } else {
      assert GuardOk(ApLine(), Started(run), stages, 0);
    }
  }

  /**
  The analytics runner on any canonical stage list, whatever the stages do: it succeeds
  exactly when every stage succeeds and the collecting stage left a record count, and then
  the machine has completed after five commits; otherwise the first trouble decides, and the
  error of a stage ends up in the run.
  */
  lemma AnalyticsRunner(run: AnalyticsRun, stages: seq<Stage<AnalyticsRun, ApEvent>>)
    requires Canonical(ApLine(), stages)
    ensures var (end, error) := PipelineRun(ApFsm(), run, Idle, StartCollect, Fail, stages);
            && EndsAs(ApLine(), Started(run), 1, stages, FirstTrouble(ApLine(), Started(run), stages, 0), end, error)
            && ApEndsWell(run, stages, end, error)
  {
    ApStarts(run);
    ApFollows();
    var st := Dispatch(ApFsm(), Fresh<AnalyticsRun, ApState, ApEvent>(run, Idle), Envelope(StartCollect, map[])).state;
    var k := FirstTrouble(ApLine(), Started(run), stages, 0);
    RunUpToTrouble(ApFsm(), ApLine(), stages, k, st);
    var (end, error) := PipelineRun(ApFsm(), run, Idle, StartCollect, Fail, stages);
    ApEnds(run, stages, end, error);
  }

  lemma FirstStageIsRefused(run: AnalyticsRun, stages: seq<Stage<AnalyticsRun, ApEvent>>)
    requires Canonical(ApLine(), stages)
    requires var out := stages[0].run(run); out.failure.None? && out.obj.recordCount == 0
    ensures FirstTrouble(ApLine(), run, stages, 0) == 0 && StageOk(ApLine(), run, stages, 0)
  {
    assert !GuardOk(ApLine(), run, stages, 0);
  }

  lemma CollectingIsLive()
    ensures !IsTerminal(ApFsm(), Collecting)
  {
  }

  /**
  A query whose collecting stage succeeds without setting the record count, which it sets
  one stage later, is always refused: no later stage runs and the machine stays in
  collecting, which is not a terminal state.
  */
  lemma LateCountNeverCompletes(run: AnalyticsRun, stages: seq<Stage<AnalyticsRun, ApEvent>>)
    requires Canonical(ApLine(), stages) && run.recordCount == 0
    requires var out := stages[0].run(Started(run)); out.failure.None? && out.obj.recordCount == 0
    ensures var (end, error) := PipelineRun(ApFsm(), run, Idle, StartCollect, Fail, stages);
            && error.Some? && error.value.TransitionRefused? && error.value.event == Collected
            && end.current == Collecting && !IsTerminal(ApFsm(), end.current) && end.seqNo == 1
  {
    AnalyticsRunner(run, stages);
    FirstStageIsRefused(Started(run), stages);
    CollectingIsLive();
  }
}

/** The forecast pipeline machine (backend/utils/FSM.go) under its runner (backend/services/analytics/Forecast.go). */
module ForecastPipeline {
  import opened Wrappers
  import opened Fsm
  import opened FsmBuilder
  import opened FsmRuns
  import opened TableKit
  import opened PipelineRunner

  datatype FpState =
    | Idle | Ingesting | FeatureEngineering | ModelTraining | Scoring | PostProcessing | Publishing | Completed | Failed

  datatype FpEvent =
    | StartIngest | Ingested | FeaturesReady | ModelTrained | Scored | PostProcessed | Published | Fail

  datatype ForecastRun = ForecastRun(stage: FpState, dataPointCount: int, modelAccuracy: real, error: string)

  type FpRow = Row<FpState, FpEvent>

  const ROWS: seq<FpRow> := [
    Row(Idle, StartIngest, Ingesting),
    Row(Ingesting, Ingested, FeatureEngineering),
    Row(FeatureEngineering, FeaturesReady, ModelTraining),
    Row(ModelTraining, ModelTrained, Scoring),
    Row(Scoring, Scored, PostProcessing),
    Row(PostProcessing, PostProcessed, Publishing),
    Row(Publishing, Published, Completed),
    Row(Ingesting, Fail, Failed),
    Row(FeatureEngineering, Fail, Failed),
    Row(ModelTraining, Fail, Failed),
    Row(Scoring, Fail, Failed),
    Row(PostProcessing, Fail, Failed),
    Row(Publishing, Fail, Failed)]

  function Demands(row: FpRow): Option<string> {
    match row.event
    case Ingested => Some("insufficient data: need at least 7 data points")
    case ModelTrained => Some("model accuracy is negative")
    case _ => None
  }

  predicate Asks(row: FpRow, r: ForecastRun, env: Envelope<FpEvent>) {
    if row.event == Ingested then r.dataPointCount >= 7 else r.modelAccuracy >= 0.0
  }

  function Makes(row: FpRow, r: ForecastRun, env: Envelope<FpEvent>): ForecastRun {
    var moved := r.(stage := row.to);
    if row.event == Fail && "error" in env.metadata then moved.(error := env.metadata["error"]) else moved
  }

  function FpTable(): Table<ForecastRun, FpState, FpEvent> {
    Table({Ingesting, FeatureEngineering, ModelTraining, Scoring, PostProcessing, Publishing}, Idle,
          {Completed, Failed}, ROWS, Demands, Asks, Makes, [])
  }

  function FpFsm(): Definition<ForecastRun, FpState, FpEvent> { Compiled(FpTable()) }

  function Rank(s: FpState): nat {
    match s
    case Idle => 7 case Ingesting => 6 case FeatureEngineering => 5 case ModelTraining => 4
    case Scoring => 3 case PostProcessing => 2 case Publishing => 1 case _ => 0
  }

  /** The stages in order; a pair's row number is the state's position, plus seven less one for a failure. */
  function Position(s: FpState): int {
    match s
    case Idle => 0 case Ingesting => 1 case FeatureEngineering => 2 case ModelTraining => 3
    case Scoring => 4 case PostProcessing => 5 case Publishing => 6 case _ => 7
  }

  function RowNumber(s: FpState, e: FpEvent): int { if e == Fail then Position(s) + 6 else Position(s) }

  /** Where an event takes a run: on along the line, or to failed from any stage that has begun. */
  function FpTarget(s: FpState, e: FpEvent): Option<FpState> {
    match (s, e)
    case (Idle, StartIngest) => Some(Ingesting)
    case (Ingesting, Ingested) => Some(FeatureEngineering)
    case (FeatureEngineering, FeaturesReady) => Some(ModelTraining)
    case (ModelTraining, ModelTrained) => Some(Scoring)
    case (Scoring, Scored) => Some(PostProcessing)
    case (PostProcessing, PostProcessed) => Some(Publishing)
    case (Publishing, Published) => Some(Completed)
    case (_, Fail) => if 1 <= Position(s) <= 6 then Some(Failed) else None
    case _ => None
  }

  lemma RowsNumbered(i: nat)
    requires i < |ROWS|
    ensures RowNumbered(FpTable(), FpTarget, RowNumber, i)
  {
  }

  lemma RowsRanked(i: nat)
    requires i < |ROWS|
    ensures Rank(ROWS[i].to) < Rank(ROWS[i].from)
  {
  }

  lemma PairsNumbered(s: FpState, e: FpEvent)
    ensures PairNumbered(FpTable(), FpTarget, RowNumber, s, e)
  {
    if FpTarget(s, e).Some? {
      assert ROWS[RowNumber(s, e)] == Row(s, e, FpTarget(s, e).value);
    }
  }

  /** The table is in order and is the reference row by row. */
  lemma ForecastDescribed()
    ensures Described(FpTable(), FpTarget)
    ensures forall row :: row in ROWS ==> Rank(row.to) < Rank(row.from)
  {
    forall i: nat | i < |ROWS|
      ensures RowNumbered(FpTable(), FpTarget, RowNumber, i)
      ensures Rank(ROWS[i].to) < Rank(ROWS[i].from)
    {
      RowsNumbered(i);
      RowsRanked(i);
    }
    forall s, e ensures PairNumbered(FpTable(), FpTarget, RowNumber, s, e) {
      PairsNumbered(s, e);
    }
    NumberedTable(FpTable(), FpTarget, RowNumber);
  }

  lemma ForecastCompiles()
    ensures WellFormed(States(FpTable()), Transitions(FpTable())) && Ranked(FpFsm(), Rank)
  {
    ForecastDescribed();
    GoodRowsWellFormed(FpTable());
    RankedTable(FpTable(), Rank);
  }

  /** The table compiles, and at most seven events ever succeed on one run. */
  lemma ForecastRunsAreShort(r: ForecastRun, start: FpState, xs: seq<Stimulus<ForecastRun, FpEvent>>)
    ensures WellFormed(States(FpTable()), Transitions(FpTable()))
    ensures Run(FpFsm(), Fresh<ForecastRun, FpState, FpEvent>(r, start), xs).seqNo <= 7
  {
    ForecastCompiles();
    RankBoundsRuns(FpFsm(), Rank, r, start, xs);
  }

  const PATH := [Ingesting, FeatureEngineering, ModelTraining, Scoring, PostProcessing, Publishing, Completed]
  const EVENTS := [Ingested, FeaturesReady, ModelTrained, Scored, PostProcessed, Published]

  /** The guard met after stage `i`. */
  predicate GuardAfter(i: nat, r: ForecastRun) {
    (i == 0 ==> r.dataPointCount >= 7) && (i == 2 ==> r.modelAccuracy >= 0.0)
  }

  function FpLine(): Line<ForecastRun, FpState, FpEvent> {
    Line(PATH, EVENTS, Failed, Fail, GuardAfter,
         (i, r: ForecastRun) => if i < 6 then r.(stage := PATH[i + 1]) else r,
         (r: ForecastRun, cause) => r.(stage := Failed, error := cause))
  }

  lemma FpLineInTable(i: nat)
    requires i < 6
    ensures LineInTable(FpTable(), FpTarget, FpLine(), i)
  {
  }

  lemma FpMovesOn(i: nat)
    requires i < 6
    ensures MovesOn(FpFsm(), FpLine(), i) && FailsFrom(FpFsm(), FpLine(), i)
  {
    ForecastDescribed();
    FpLineInTable(i);
    TableMovesOn(FpTable(), FpTarget, FpLine(), i);
  }

  lemma FpFollows()
    ensures Follows(FpFsm(), FpLine())
  {
    forall i: nat | i < 6 ensures MovesOn(FpFsm(), FpLine(), i) && FailsFrom(FpFsm(), FpLine(), i) {
      FpMovesOn(i);
    }
  }

  function Started(r: ForecastRun): ForecastRun { r.(stage := Ingesting) }

  lemma FpStarts(r: ForecastRun)
    ensures var st := Fresh<ForecastRun, FpState, FpEvent>(r, Idle);
            var first := Dispatch(FpFsm(), st, Envelope(StartIngest, map[]));
            && first.error.None? && !first.state.inFlight
            && first.state.current == Ingesting && first.state.seqNo == 1 && first.state.obj == Started(r)
  {
    ForecastDescribed();
    TargetSend(FpTable(), FpTarget, Fresh<ForecastRun, FpState, FpEvent>(r, Idle), Envelope(StartIngest, map[]));
  }

  /** What a run's end says about its stages and guards, and about the run's fields. */
  ghost predicate FpEndsWell(
      run: ForecastRun, stages: seq<Stage<ForecastRun, FpEvent>>,
      end: MachineState<ForecastRun, FpState, FpEvent>, error: Option<RunError<FpState, FpEvent>>)
    requires Canonical(FpLine(), stages)
  {
    && (error.None? <==>
          && (forall i: nat :: i < 6 ==> StageOk(FpLine(), Started(run), stages, i))
          && stages[0].run(Started(run)).obj.dataPointCount >= 7
          && stages[2].run(RunBefore(FpLine(), Started(run), stages, 2)).obj.modelAccuracy >= 0.0)
    && (error.None? ==> end.current == Completed && end.seqNo == 7 && end.obj.stage == Completed)
    && (error.Some? && error.value.StageFailed? ==>
          end.current == Failed && end.obj.stage == Failed && end.obj.error == error.value.cause)
  }

  lemma FpEnds(
      run: ForecastRun, stages: seq<Stage<ForecastRun, FpEvent>>,
      end: MachineState<ForecastRun, FpState, FpEvent>, error: Option<RunError<FpState, FpEvent>>)
    requires Canonical(FpLine(), stages)
    requires EndsAs(FpLine(), Started(run), 1, stages, FirstTrouble(FpLine(), Started(run), stages, 0), end, error)
    ensures FpEndsWell(run, stages, end, error)
  {
    var k := FirstTrouble(FpLine(), Started(run), stages, 0);
    if k < 6 {
      assert !StageOk(FpLine(), Started(run), stages, k) || !GuardOk(FpLine(), Started(run), stages, k);
    } else {
      assert GuardOk(FpLine(), Started(run), stages, 0) && GuardOk(FpLine(), Started(run), stages, 2);
    }
  }

  /**
  The forecast runner on any canonical stage list, whatever the stages do: it succeeds
  exactly when every stage succeeds, the ingesting stage found seven points and training
  left a non-negative accuracy, and then the machine has completed after seven commits;
  otherwise the first trouble decides, and the error of a stage ends up in the run.
  */
  lemma ForecastRunner(run: ForecastRun, stages: seq<Stage<ForecastRun, FpEvent>>)
    requires Canonical(FpLine(), stages)
    ensures var (end, error) := PipelineRun(FpFsm(), run, Idle, StartIngest, Fail, stages);
            && EndsAs(FpLine(), Started(run), 1, stages, FirstTrouble(FpLine(), Started(run), stages, 0), end, error)
            && FpEndsWell(run, stages, end, error)
  {
    FpStarts(run);
    FpFollows();
    var st := Dispatch(FpFsm(), Fresh<ForecastRun, FpState, FpEvent>(run, Idle), Envelope(StartIngest, map[])).state;
    var k := FirstTrouble(FpLine(), Started(run), stages, 0);
    RunUpToTrouble(FpFsm(), FpLine(), stages, k, st);
    var (end, error) := PipelineRun(FpFsm(), run, Idle, StartIngest, Fail, stages);
    FpEnds(run, stages, end, error);
  }
}
