/** The matrix handler: gates the request kind, resolves the mode, rebuilds
    that mode's cost model, projects every place, asks the engine for the
    matrix and classifies its results into a single response row. The
    engine (projection, matrix computation, its constants) is a parameter. */
module MatrixHandler {
  import opened Wrappers
  import opened ModeRegistry
  import opened CostingConfig
  import opened ResultClassifier

  /** The API a request asks for; only two of them are served here. */
  datatype Api = StreetNetworkRoutingMatrix | DirectPath | OtherApi(code: nat)

  /** An origin or destination of the request, named by its place. */
  datatype LocationContext = LocationContext(place: string)

  /** The matrix part of a request. `maxDuration` is already converted to an
      unsigned 32-bit value; `speed` is in metres per second. */
  datatype MatrixRequest = MatrixRequest(
    origins: seq<LocationContext>,
    destinations: seq<LocationContext>,
    mode: string,
    speed: real,
    maxDuration: nat)

  datatype Request = Request(requestedApi: Api, matrix: MatrixRequest)

  /** A response row: one entry per (origin, destination) pair. */
  datatype Row = Row(entries: seq<RoutingResponse>)

  /** A response: no rows for an unserved request, one row otherwise. */
  datatype Response = Response(rows: seq<Row>)

  /** The ways a request fails after the request kind was accepted. */
  datatype HandlerError =
    | UnknownMode(mode: string)
    | MissingPlace(place: string)
    | ResultCountMismatch(expected: nat, actual: nat)

  /** What the handler asks the engine to project: every origin then every
      destination, the mode name and the cost model of the mode's slot. */
  datatype ProjectionQuery = ProjectionQuery(places: seq<string>, mode: string, costing: CostModel)

  /** What the handler asks the engine to compute the matrix from. */
  datatype MatrixQuery<L> = MatrixQuery(
    sources: seq<L>,
    targets: seq<L>,
    modeCosting: seq<CostModel>,
    travelMode: TravelMode,
    maxDistance: real)

  /** The routing engine as the handler sees it: a projection from places to
      network locations of type `L`, a matrix computation, the sentinel the
      computation reports for an unknown cost, and the threshold divisors. */
  datatype Engine<!L> = Engine(
    project: ProjectionQuery -> map<string, L>,
    solve: MatrixQuery<L> -> seq<TimeDistance>,
    maxCost: nat,
    divisors: Divisors)

  /** The handler's state across requests: one cost model per travel mode. */
  datatype HandlerState = HandlerState(modeCosting: seq<CostModel>) {
    predicate Valid()
    {
      |modeCosting| == ModeCount
    }
  }

  /** The state after a request, which changes even when the request then
      fails, and the response or the failure. */
  datatype Reply = Reply(state: HandlerState, outcome: Result<Response, HandlerError>)

  /** A fresh handler holds every mode's costing built from the default template. */
  function NewHandler(): (h: HandlerState)
    ensures h.Valid()
    ensures forall m :: h.modeCosting[Index(m)] == CostModel(CostingOf(m), DefaultOptions())
  {
    HandlerState(InitialModeCosting())
  }

  /** The request kinds this handler serves. */
  predicate Supported(api: Api)
  {
    api == StreetNetworkRoutingMatrix || api == DirectPath
  }

  /** The place names of a list of locations, in the same order. */
  function Places(locs: seq<LocationContext>): (ids: seq<string>)
    ensures |ids| == |locs|
    ensures forall i :: 0 <= i < |locs| ==> ids[i] == locs[i].place
  {
    if |locs| == 0 then [] else [locs[0].place] + Places(locs[1..])
  }

  /** Looks every place up in the projection, in order. It succeeds exactly
      when every place was projected, giving the projected location of each
      place at its position; otherwise it fails on the first missing place. */
  function LookupAll<L>(ids: seq<string>, locs: map<string, L>): (r: Result<seq<L>, string>)
    ensures r.Success? <==> forall i :: 0 <= i < |ids| ==> ids[i] in locs
    ensures r.Success? ==> |r.value| == |ids|
    ensures r.Success? ==> forall i :: 0 <= i < |ids| ==> ids[i] in locs && r.value[i] == locs[ids[i]]
    ensures r.Failure? ==> exists i :: FirstMissing(ids, locs, i) && ids[i] == r.error
  {
    if |ids| == 0 then Success([])
    else if ids[0] !in locs then
      assert FirstMissing(ids, locs, 0);
      Failure(ids[0])
    else
      match LookupAll(ids[1..], locs)
      case Failure(p) =>
        assert exists i :: FirstMissing(ids, locs, i) && ids[i] == p by {
          var i :| FirstMissing(ids[1..], locs, i) && ids[1..][i] == p;
          assert FirstMissing(ids, locs, i + 1);
        }
        Failure(p)
      case Success(rest) => Success([locs[ids[0]]] + rest)
  }

  /** `ids[i]` is the first place of `ids` that was not projected. */
  ghost predicate FirstMissing<L>(ids: seq<string>, locs: map<string, L>, i: int)
  {
    0 <= i < |ids| && ids[i] !in locs && forall j :: 0 <= j < i ==> ids[j] in locs
  }

  /** Looks up the sources, then the targets. It succeeds exactly when every
      place of both lists was projected; otherwise it fails on the first
      missing place of the sources followed by the targets. */
  function LookupBoth<L>(sources: seq<string>, targets: seq<string>, locs: map<string, L>): (r: Result<(seq<L>, seq<L>), string>)
    ensures r.Success? <==> forall i :: 0 <= i < |sources + targets| ==> (sources + targets)[i] in locs
    ensures r.Success? ==> |r.value.0| == |sources| && |r.value.1| == |targets|
    ensures r.Success? ==> forall i :: 0 <= i < |sources| ==> sources[i] in locs && r.value.0[i] == locs[sources[i]]
    ensures r.Success? ==> forall j :: 0 <= j < |targets| ==> targets[j] in locs && r.value.1[j] == locs[targets[j]]
    ensures r.Failure? ==> exists i :: FirstMissing(sources + targets, locs, i) && (sources + targets)[i] == r.error
  {
    var ps := sources + targets;
    match LookupAll(sources, locs)
    case Failure(p) =>
      assert exists i :: FirstMissing(ps, locs, i) && ps[i] == p by {
        var i :| FirstMissing(sources, locs, i) && sources[i] == p;
        assert FirstMissing(ps, locs, i);
      }
      Failure(p)
    case Success(src) =>
      match LookupAll(targets, locs)
      case Failure(p) =>
        assert exists i :: FirstMissing(ps, locs, i) && ps[i] == p by {
          var i :| FirstMissing(targets, locs, i) && targets[i] == p;
          forall j | 0 <= j < |sources| + i
            ensures ps[j] in locs
          {
            if j >= |sources| {
              assert ps[j] == targets[j - |sources|];
            }
          }
          assert FirstMissing(ps, locs, |sources| + i);
        }
        Failure(p)
      case Success(tgt) =>
        assert forall i :: 0 <= i < |ps| ==> ps[i] in locs by {
          forall i | 0 <= i < |ps|
            ensures ps[i] in locs
          {
            if i >= |sources| {
              assert ps[i] == targets[i - |sources|];
            }
          }
        }
        Success((src, tgt))
  }

  /** Handles one request against the engine. */
  function Handle<L>(h: HandlerState, req: Request, engine: Engine<L>): (r: Reply)
    requires h.Valid()
    ensures r.state.Valid()
    ensures !Supported(req.requestedApi) ==> r == Reply(h, Success(Response([])))
    ensures Supported(req.requestedApi) && req.matrix.mode !in ModeNames ==> r == Reply(h, Failure(UnknownMode(req.matrix.mode)))
    ensures r.outcome.Success? && Supported(req.requestedApi) ==>
              |r.outcome.value.rows| == 1
              && |r.outcome.value.rows[0].entries| == |req.matrix.origins| * |req.matrix.destinations|
  {
    if !Supported(req.requestedApi) then Reply(h, Success(Response([])))
    else
      var q := req.matrix;
      var sources := Places(q.origins);
      var targets := Places(q.destinations);
      match ModeOf(q.mode)
      case None => Reply(h, Failure(UnknownMode(q.mode)))
      case Some(m) =>
        var built := CostModel(ToCosting(q.mode).value, MakeCostingOption(q.mode, q.speed));
        var h' := HandlerState(ReplaceSlot(h.modeCosting, m, built));
        var costing := h'.modeCosting[ModeIndex(q.mode).value];
        var locs := engine.project(ProjectionQuery(sources + targets, q.mode, costing));
        match LookupBoth(sources, targets, locs)
        case Failure(p) => Reply(h', Failure(MissingPlace(p)))
        case Success((src, tgt)) =>
          var threshold := DistanceThreshold(engine.divisors, q.mode, q.maxDuration as real);
          var res := engine.solve(MatrixQuery(src, tgt, h'.modeCosting, m, threshold));
          if |res| != |sources| * |targets| then
            Reply(h', Failure(ResultCountMismatch(|sources| * |targets|, |res|)))
          else
            Reply(h', Success(Response([Row(ClassifyRow(res, q.maxDuration, engine.maxCost))])))
  }

  /** The cost model a valid request installs in its mode's slot. */
  function Rebuilt(q: MatrixRequest, m: TravelMode): CostModel
  {
    CostModel(CostingOf(m), MakeCostingOption(q.mode, q.speed))
  }

  /** Once the mode is known, the request replaces that mode's slot with a
      cost model of the mode's costing built from fresh options, whatever
      happens afterwards; the other slots keep their previous cost models. */
  lemma SlotReplaced<L>(h: HandlerState, req: Request, engine: Engine<L>)
    requires h.Valid() && Supported(req.requestedApi) && req.matrix.mode in ModeNames
    ensures var m := ModeOf(req.matrix.mode).value;
            var s := Handle(h, req, engine).state;
            && s.modeCosting[Index(m)] == Rebuilt(req.matrix, m)
            && forall m' :: m' != m ==> s.modeCosting[Index(m')] == h.modeCosting[Index(m')]
  {
  }

  /** The projection is asked for every origin then every destination, in
      request order, with the cost model just installed. A request fails on
      a missing place exactly when some requested place was not projected,
      and then names the first such place in that order. */
  lemma MissingPlaceFails<L>(h: HandlerState, req: Request, engine: Engine<L>)
    requires h.Valid() && Supported(req.requestedApi) && req.matrix.mode in ModeNames
    ensures var q := req.matrix;
            var ps := Places(q.origins) + Places(q.destinations);
            var locs := engine.project(ProjectionQuery(ps, q.mode, Rebuilt(q, ModeOf(q.mode).value)));
            var o := Handle(h, req, engine).outcome;
            && ((o.Failure? && o.error.MissingPlace?) <==> exists i :: 0 <= i < |ps| && ps[i] !in locs)
            && (o.Failure? && o.error.MissingPlace? ==> exists i :: FirstMissing(ps, locs, i) && ps[i] == o.error.place)
  {
  }

  /** When every place was projected, the engine is asked for the matrix of
      the projected origins against the projected destinations (each list in
      request order), with the updated cost-model table, the request's travel
      mode and the mode's distance threshold. If it returns one result per
      pair the response is a single row whose entry i is result i classified;
      otherwise the request fails on the count. */
  lemma HandleBuildsMatrix<L>(h: HandlerState, req: Request, engine: Engine<L>, src: seq<L>, tgt: seq<L>)
    requires h.Valid() && Supported(req.requestedApi) && req.matrix.mode in ModeNames
    requires var q := req.matrix;
             var locs := engine.project(ProjectionQuery(Places(q.origins) + Places(q.destinations), q.mode, Rebuilt(q, ModeOf(q.mode).value)));
             && |src| == |q.origins| && |tgt| == |q.destinations|
             && (forall i :: 0 <= i < |src| ==> q.origins[i].place in locs && src[i] == locs[q.origins[i].place])
             && (forall j :: 0 <= j < |tgt| ==> q.destinations[j].place in locs && tgt[j] == locs[q.destinations[j].place])
    ensures var q := req.matrix;
            var m := ModeOf(q.mode).value;
            var table := ReplaceSlot(h.modeCosting, m, Rebuilt(q, m));
            var res := engine.solve(MatrixQuery(src, tgt, table, m, DistanceThreshold(engine.divisors, q.mode, q.maxDuration as real)));
            var o := Handle(h, req, engine).outcome;
            && (o.Success? <==> |res| == |src| * |tgt|)
            && (o.Failure? ==> o.error == ResultCountMismatch(|src| * |tgt|, |res|))
            && (o.Success? ==>
                  && |o.value.rows| == 1
                  && |o.value.rows[0].entries| == |res|
                  && forall i :: 0 <= i < |res| ==>
                       o.value.rows[0].entries[i] == RoutingResponse(res[i].time, Classify(res[i].time, q.maxDuration, engine.maxCost)))
  {
    var q := req.matrix;
    var m := ModeOf(q.mode).value;
    ToCostingAgreesWithMode(q.mode);
    var locs := engine.project(ProjectionQuery(Places(q.origins) + Places(q.destinations), q.mode, Rebuilt(q, m)));
    var sources, targets := Places(q.origins), Places(q.destinations);
    forall i | 0 <= i < |sources + targets|
      ensures (sources + targets)[i] in locs
    {
      if i >= |sources| {
        assert (sources + targets)[i] == targets[i - |sources|];
      }
    }
    var r := LookupBoth(sources, targets, locs);
    assert r.value.0 == src;
    assert r.value.1 == tgt;
  }

  /** Handling the same request twice in a row gives the same state and the
      same outcome the second time: the slot it rebuilds already holds what
      it builds, and the engine is asked the same questions. */
  lemma HandleIdempotent<L>(h: HandlerState, req: Request, engine: Engine<L>)
    requires h.Valid()
    ensures Handle(Handle(h, req, engine).state, req, engine) == Handle(h, req, engine)
  {
    if Supported(req.requestedApi) && req.matrix.mode in ModeNames {
      var m := ModeOf(req.matrix.mode).value;
      ReplaceSlotIdempotent(h.modeCosting, m, Rebuilt(req.matrix, m));
      ToCostingAgreesWithMode(req.matrix.mode);
    }
  }

  /** Two origins and one destination by car with a 600 s budget: a result of
      500 s is reached and the sentinel is unknown, each keeping its raw time. */
  lemma ExampleReachedAndUnknown(sentinel: nat, d: Divisors)
    requires sentinel > 600
    ensures var req := Request(StreetNetworkRoutingMatrix, MatrixRequest(
                         [LocationContext("A"), LocationContext("B")], [LocationContext("X")], "car", 1.0, 600));
            var engine := Engine(
                            (q: ProjectionQuery) => map["A" := 1, "B" := 2, "X" := 3],
                            (q: MatrixQuery<int>) => [TimeDistance(500, 0), TimeDistance(sentinel, 0)],
                            sentinel, d);
            Handle(NewHandler(), req, engine).outcome
              == Success(Response([Row([RoutingResponse(500, Reached), RoutingResponse(sentinel, Unknown)])]))
  {
    var req := Request(StreetNetworkRoutingMatrix, MatrixRequest(
                 [LocationContext("A"), LocationContext("B")], [LocationContext("X")], "car", 1.0, 600));
    var engine := Engine(
                    (q: ProjectionQuery) => map["A" := 1, "B" := 2, "X" := 3],
                    (q: MatrixQuery<int>) => [TimeDistance(500, 0), TimeDistance(sentinel, 0)],
                    sentinel, d);
    HandleBuildsMatrix(NewHandler(), req, engine, [1, 2], [3]);
    var o := Handle(NewHandler(), req, engine).outcome;
    assert o.value.rows[0].entries == [RoutingResponse(500, Reached), RoutingResponse(sentinel, Unknown)];
  }
}
